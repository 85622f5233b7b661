/**
 * The order of one generation's rows on a journal page that other generations and other commits
 * also write to. `gens` says which generation landed each uncommitted row.
 */
module PageOrder {
  import opened Options
  import opened Visibility
  import opened Fence
  import opened Lifecycle
  import opened Journal
  import opened Machines
  import opened ExactlyOnce

  function FactTransitions(facts: seq<Fact>): seq<TransitionEntry> {
    if facts == [] then []
    else
      var n := |facts| - 1;
      FactTransitions(facts[..n]) + if facts[n].TransitionFact? then [facts[n].transition] else []
  }

  function GensOf(log: seq<LogRow>): seq<Generation> {
    if log == [] then []
    else
      var n := |log| - 1;
      GensOf(log[..n]) + if log[n].fact.TransitionFact? then [log[n].generation] else []
  }

  /** The entries of `plain` that generation `g` landed. */
  function Pick(plain: seq<TransitionEntry>, gens: seq<Generation>, g: Generation): seq<TransitionEntry>
    requires |plain| == |gens|
  {
    if plain == [] then []
    else
      var n := |plain| - 1;
      Pick(plain[..n], gens[..n], g) + if gens[n] == g then [plain[n]] else []
  }

  /** What a reader of the page sees of generation `g` whose published commits are `mine`, in page order. */
  function VisibleOf(rows: seq<StoredTransition>, gens: seq<Generation>, mine: set<CommitId>, g: Generation): seq<TransitionEntry>
    requires |Plain(rows)| == |gens|
    decreases rows
  {
    if rows == [] then []
    else
      var n := |rows| - 1;
      PlainLast(rows);
      if rows[n].commit.None? then
        VisibleOf(rows[..n], gens[..|gens| - 1], mine, g) + if gens[|gens| - 1] == g then [rows[n].entry] else []
      else VisibleOf(rows[..n], gens, mine, g) + if rows[n].commit.value in mine then [rows[n].entry] else []
  }

  /** Every row of generation `g` that follows a row of commit `id` starts no earlier than `rank`. */
  ghost predicate Late(rows: seq<StoredTransition>, gens: seq<Generation>, g: Generation, id: CommitId, rank: nat)
    requires |Plain(rows)| == |gens|
    decreases rows
  {
    rows == [] ||
    var n := |rows| - 1;
    PlainLast(rows);
    if rows[n].commit.None? then
      && Late(rows[..n], gens[..|gens| - 1], g, id, rank)
      && (gens[|gens| - 1] == g && Under(rows[..n], id) != [] ==> Rank(rows[n].entry.from) >= rank)
    else Late(rows[..n], gens, g, id, rank)
  }

  lemma PlainLast(rows: seq<StoredTransition>)
    requires rows != []
    ensures var n := |rows| - 1; Plain(rows) == Plain(rows[..n]) + if rows[n].commit.None? then [rows[n].entry] else []
  {
    var n := |rows| - 1;
    assert rows == rows[..n] + [rows[n]];
    PlainSplits(rows[..n], [rows[n]]);
  }

  lemma UnderLast(rows: seq<StoredTransition>, id: CommitId)
    requires rows != []
    ensures var n := |rows| - 1;
      Under(rows, id) == Under(rows[..n], id) + if rows[n].commit == Some(id) then [rows[n].entry] else []
  {
    var n := |rows| - 1;
    assert rows == rows[..n] + [rows[n]];
    UnderSplits(rows[..n], [rows[n]], id);
  }

  /** Before its first row is staged a commit constrains nothing. */
  lemma {:induction false} LateBeforeStaging(rows: seq<StoredTransition>, gens: seq<Generation>, g: Generation, id: CommitId, rank: nat)
    requires |Plain(rows)| == |gens| && Under(rows, id) == []
    ensures Late(rows, gens, g, id, rank)
    decreases rows
  {
    if rows != [] {
      PlainLast(rows);
      UnderLast(rows, id);
      var n := |rows| - 1;
      LateBeforeStaging(rows[..n], if rows[n].commit.None? then gens[..|gens| - 1] else gens, g, id, rank);
    }
  }

  lemma LateCommitted(rows: seq<StoredTransition>, gens: seq<Generation>, g: Generation, id: CommitId, rank: nat, row: StoredTransition)
    requires |Plain(rows)| == |gens| && Late(rows, gens, g, id, rank) && row.commit.Some?
    ensures |Plain(rows + [row])| == |gens| && Late(rows + [row], gens, g, id, rank)
  {
    PlainLast(rows + [row]);
    assert (rows + [row])[..|rows|] == rows;
  }

  lemma {:induction false} LateAfterTail(rows: seq<StoredTransition>, gens: seq<Generation>, g: Generation, id: CommitId, rank: nat,
                                         entries: seq<TransitionEntry>, commit: CommitId)
    requires |Plain(rows)| == |gens| && Late(rows, gens, g, id, rank)
    ensures var rows' := rows + Tail(entries, commit); |Plain(rows')| == |gens| && Late(rows', gens, g, id, rank)
    decreases entries
  {
    var rows' := rows + Tail(entries, commit);
    if entries == [] {
      assert rows' == rows;
    } else {
      var n := |entries| - 1;
      LateAfterTail(rows, gens, g, id, rank, entries[..n], commit);
      assert Tail(entries, commit)[..n] == Tail(entries[..n], commit);
      assert rows' == rows + Tail(entries[..n], commit) + [StoredTransition(entries[n], Some(commit))];
      LateCommitted(rows + Tail(entries[..n], commit), gens, g, id, rank, StoredTransition(entries[n], Some(commit)));
    }
  }

  lemma LateAfterLanding(rows: seq<StoredTransition>, gens: seq<Generation>, g: Generation, id: CommitId, rank: nat,
                         entry: TransitionEntry, from: Generation)
    requires |Plain(rows)| == |gens| && Late(rows, gens, g, id, rank)
    requires from == g && Under(rows, id) != [] ==> Rank(entry.from) >= rank
    ensures var rows' := rows + [StoredTransition(entry, None)];
      |Plain(rows')| == |gens| + 1 && Late(rows', gens + [from], g, id, rank)
  {
    var rows' := rows + [StoredTransition(entry, None)];
    PlainLast(rows');
    assert rows'[..|rows|] == rows && (gens + [from])[..|gens|] == gens;
  }

  lemma {:induction false} DroppedSplits(a: seq<StoredTransition>, b: seq<StoredTransition>, commit: CommitId)
    ensures Dropped(a + b, commit) == Dropped(a, commit) + Dropped(b, commit)
  {
    if a == [] {
      assert a + b == b;
    } else {
      DroppedSplits(a[1..], b, commit);
      assert (a + b)[0] == a[0] && (a + b)[1..] == a[1..] + b;
    }
  }

  lemma DroppedNothing(commit: CommitId)
    ensures Dropped([], commit) == []
  {
  }

  lemma DroppedLast(rows: seq<StoredTransition>, commit: CommitId)
    requires rows != []
    ensures var n := |rows| - 1;
      Dropped(rows, commit) == Dropped(rows[..n], commit) + if rows[n].commit == Some(commit) then [] else [rows[n]]
  {
    var n := |rows| - 1;
    assert rows == rows[..n] + [rows[n]];
    DroppedSplits(rows[..n], [rows[n]], commit);
    assert [rows[n]][1..] == [];
  }

  lemma {:induction false} LateAfterAbandon(rows: seq<StoredTransition>, gens: seq<Generation>, g: Generation, id: CommitId, rank: nat,
                                            commit: CommitId)
    requires |Plain(rows)| == |gens| && Late(rows, gens, g, id, rank)
    ensures |Plain(Dropped(rows, commit))| == |gens| && Late(Dropped(rows, commit), gens, g, id, rank)
    decreases rows
  {
    hide Dropped, Plain, Under;
    PlainDropped(rows, commit);
    DroppedNothing(commit);
    if rows != [] {
      var n := |rows| - 1;
      var last := rows[n];
      PlainLast(rows);
      DroppedLast(rows, commit);
      if last.commit.None? {
        var m := |gens| - 1;
        LateAfterAbandon(rows[..n], gens[..m], g, id, rank, commit);
        UnderDropped(rows[..n], commit, id);
        hide Late;
        LateAfterLanding(Dropped(rows[..n], commit), gens[..m], g, id, rank, last.entry, gens[m]);
        assert gens == gens[..m] + [gens[m]];
        assert last == StoredTransition(last.entry, None);
      } else {
        LateAfterAbandon(rows[..n], gens, g, id, rank, commit);
        hide Late;
        if last.commit == Some(commit) {
          assert Dropped(rows, commit) == Dropped(rows[..n], commit);
        } else {
          LateCommitted(Dropped(rows[..n], commit), gens, g, id, rank, last);
        }
      }
    }
  }

  /**
   * When everything generation `g` landed starts before `rank`, a reader sees all of that first
   * and then the tail of its one published commit.
   */
  lemma {:induction false} LandedThenTail(rows: seq<StoredTransition>, gens: seq<Generation>, g: Generation, id: CommitId, rank: nat)
    requires |Plain(rows)| == |gens| && Late(rows, gens, g, id, rank)
    requires forall e | e in Pick(Plain(rows), gens, g) :: Rank(e.from) < rank
    ensures VisibleOf(rows, gens, {id}, g) == Pick(Plain(rows), gens, g) + Under(rows, id)
    decreases rows
  {
    if rows != [] {
      var n := |rows| - 1;
      PlainLast(rows);
      UnderLast(rows, id);
      var plain := Plain(rows);
      if rows[n].commit.None? {
        var m := |gens| - 1;
        assert plain[..m] == Plain(rows[..n]);
        assert Pick(plain, gens, g) == Pick(plain[..m], gens[..m], g) + if gens[m] == g then [rows[n].entry] else [];
        LandedThenTail(rows[..n], gens[..m], g, id, rank);
        if gens[m] == g {
          assert rows[n].entry in Pick(plain, gens, g);
          assert Under(rows[..n], id) == [];
        }
      } else {
        assert Plain(rows[..n]) == plain;
        LandedThenTail(rows[..n], gens, g, id, rank);
      }
    }
  }

  /** With no published commit a reader sees exactly what the generation landed. */
  lemma {:induction false} LandedAlone(rows: seq<StoredTransition>, gens: seq<Generation>, g: Generation)
    requires |Plain(rows)| == |gens|
    ensures VisibleOf(rows, gens, {}, g) == Pick(Plain(rows), gens, g)
    decreases rows
  {
    if rows != [] {
      var n := |rows| - 1;
      PlainLast(rows);
      var plain := Plain(rows);
      if rows[n].commit.None? {
        assert plain[..|gens| - 1] == Plain(rows[..n]);
        LandedAlone(rows[..n], gens[..|gens| - 1], g);
      } else {
        assert Plain(rows[..n]) == plain;
        LandedAlone(rows[..n], gens, g);
      }
    }
  }

  lemma {:induction false} GensMatch(log: seq<LogRow>)
    ensures |GensOf(log)| == |TransitionsIn(log)|
  {
    if log != [] {
      GensMatch(log[..|log| - 1]);
    }
  }

  lemma {:induction false} PickIsLanded(log: seq<LogRow>, g: Generation)
    ensures |GensOf(log)| == |TransitionsIn(log)|
    ensures Pick(TransitionsIn(log), GensOf(log), g) == FactTransitions(LogOf(log, g))
  {
    GensMatch(log);
    if log != [] {
      var n := |log| - 1;
      PickIsLanded(log[..n], g);
      var before, facts := TransitionsIn(log[..n]), LogOf(log[..n], g);
      var all, gens := TransitionsIn(log), GensOf(log);
      if log[n].fact.TransitionFact? {
        assert all[..|before|] == before && gens[..|before|] == GensOf(log[..n]);
        assert Pick(all, gens, g) == Pick(before, GensOf(log[..n]), g) + if log[n].generation == g then [all[|before|]] else [];
      } else {
        assert all == before && gens == GensOf(log[..n]);
      }
      if log[n].generation == g {
        assert LogOf(log, g)[..|facts|] == facts;
      } else {
        assert LogOf(log, g) == facts;
      }
    }
  }

  lemma {:induction false} FactTransitionsSplit(a: seq<Fact>, b: seq<Fact>)
    ensures FactTransitions(a + b) == FactTransitions(a) + FactTransitions(b)
    decreases b
  {
    if b == [] {
      assert a + b == a;
    } else {
      var n := |b| - 1;
      FactTransitionsSplit(a, b[..n]);
      assert (a + b)[..|a + b| - 1] == a + b[..n];
    }
  }
}
