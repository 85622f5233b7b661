/**
 * The run lease: it mints generations, remembers how each claim attempt was
 * resolved, and names at most one current holder per run.
 */
module Lease {
  import opened Options
  import opened Visibility
  import opened Fence

  datatype Attempt = Attempt(run: RunId, id: string)

  /** `generation` survives an abandon: the record keeps what the attempt had earned. */
  datatype Resolution = Granted(generation: Generation) | AbandonedWith(earned: Option<Generation>)

  datatype LeaseState = LeaseState(
    held: map<RunId, Generation>,
    attempts: map<Attempt, Resolution>,
    minted: Generation)

  datatype ClaimAnswer = Owned(generation: Generation) | ClaimAborted | AlreadyLeased

  const EMPTY: LeaseState := LeaseState(map[], map[], 0)

  predicate Holds(s: LeaseState, run: RunId, generation: Generation) {
    run in s.held && s.held[run] == generation
  }

  function Claim(s: LeaseState, attempt: Attempt, aborted: bool): (r: (ClaimAnswer, LeaseState)) {
    if attempt in s.attempts && s.attempts[attempt].AbandonedWith? then (ClaimAborted, s)
    else if attempt in s.attempts then
      if Holds(s, attempt.run, s.attempts[attempt].generation) then (Owned(s.attempts[attempt].generation), s)
      else (ClaimAborted, s)
    else if aborted then (ClaimAborted, s)
    else if attempt.run in s.held then (AlreadyLeased, s)
    else
      var g := s.minted + 1;
      (Owned(g), LeaseState(s.held[attempt.run := g], s.attempts[attempt := Granted(g)], g))
  }

  function Earned(s: LeaseState, attempt: Attempt): Option<Generation> {
    if attempt !in s.attempts then None
    else match s.attempts[attempt]
      case Granted(g) => Some(g)
      case AbandonedWith(earned) => earned
  }

  function Abandon(s: LeaseState, attempt: Attempt): LeaseState {
    var current := attempt in s.attempts && s.attempts[attempt].Granted?
                   && Holds(s, attempt.run, s.attempts[attempt].generation);
    s.(held := if current then s.held - {attempt.run} else s.held,
       attempts := s.attempts[attempt := AbandonedWith(Earned(s, attempt))])
  }

  function Release(s: LeaseState, run: RunId, generation: Generation): LeaseState {
    if Holds(s, run, generation) then s.(held := s.held - {run}) else s
  }

  class InMemoryRunLease {
    var held: map<RunId, Generation>
    var attempts: map<Attempt, Resolution>
    var generation: Generation

    function State(): LeaseState
      reads this
    {
      LeaseState(held, attempts, generation)
    }

    constructor ()
      ensures State() == EMPTY
    {
      held, attempts, generation := map[], map[], 0;
    }

    method ClaimRun(attempt: Attempt, aborted: bool) returns (answer: ClaimAnswer)
      modifies this
      ensures (answer, State()) == Claim(old(State()), attempt, aborted)
    {
      if attempt in attempts && attempts[attempt].AbandonedWith? {
        return ClaimAborted;
      }
      if attempt in attempts {
        if attempt.run in held && held[attempt.run] == attempts[attempt].generation {
          return Owned(attempts[attempt].generation);
        }
        return ClaimAborted;
      }
      if aborted {
        return ClaimAborted;
      }
      if attempt.run in held {
        return AlreadyLeased;
      }
      generation := generation + 1;
      held := held[attempt.run := generation];
      attempts := attempts[attempt := Granted(generation)];
      answer := Owned(generation);
    }

    method AbandonAttempt(attempt: Attempt)
      modifies this
      ensures State() == Abandon(old(State()), attempt)
    {
      var earned := Earned(State(), attempt);
      if attempt in attempts && attempts[attempt].Granted? && Holds(State(), attempt.run, attempts[attempt].generation) {
        held := held - {attempt.run};
      }
      attempts := attempts[attempt := AbandonedWith(earned)];
    }

    method Renew(run: RunId, gen: Generation) returns (owned: bool)
      ensures owned == Holds(State(), run, gen)
    {
      owned := run in held && held[run] == gen;
    }

    method ReleaseRun(run: RunId, gen: Generation)
      modifies this
      ensures State() == Release(old(State()), run, gen)
    {
      if run in held && held[run] == gen {
        held := held - {run};
      }
    }
  }

  // ------------------------------------------------------------- whole histories

  datatype Action =
    | ClaimAction(attempt: Attempt, aborted: bool)
    | AbandonAction(attempt: Attempt)
    | ReleaseAction(run: RunId, generation: Generation)

  function Step(s: LeaseState, action: Action): LeaseState {
    match action
    case ClaimAction(attempt, aborted) => Claim(s, attempt, aborted).1
    case AbandonAction(attempt) => Abandon(s, attempt)
    case ReleaseAction(run, generation) => Release(s, run, generation)
  }

  function Play(s: LeaseState, actions: seq<Action>): LeaseState
    decreases actions
  {
    if actions == [] then s else Play(Step(s, actions[0]), actions[1..])
  }

  ghost predicate IsGranted(s: LeaseState, attempt: Attempt, generation: Generation) {
    attempt in s.attempts && s.attempts[attempt] == Granted(generation)
  }

  /**
   * Every held generation was minted and belongs to one granted, never-abandoned attempt of its
   * run; no generation was ever earned twice.
   */
  ghost predicate Sound(s: LeaseState) {
    && (forall run | run in s.held :: 0 < s.held[run] <= s.minted &&
          exists a: Attempt :: a.run == run && IsGranted(s, a, s.held[run]))
    && (forall a | Earned(s, a).Some? :: 0 < Earned(s, a).value <= s.minted)
    && (forall a1, a2 | Earned(s, a1).Some? && Earned(s, a1) == Earned(s, a2) :: a1 == a2)
  }

  lemma StepKeepsSound(s: LeaseState, action: Action)
    requires Sound(s)
    ensures Sound(Step(s, action))
  {
    var s' := Step(s, action);
    forall a
      ensures Earned(s', a) == Earned(s, a) ||
              (action.ClaimAction? && a == action.attempt && Earned(s', a) == Some(s.minted + 1) && s'.minted == s.minted + 1)
    {
    }
    forall run | run in s'.held
      ensures 0 < s'.held[run] <= s'.minted && exists a: Attempt :: a.run == run && IsGranted(s', a, s'.held[run])
    {
      if run in s.held && s.held[run] == s'.held[run] {
        var a: Attempt :| a.run == run && IsGranted(s, a, s.held[run]);
        assert Earned(s, a) == Some(s.held[run]);
        assert IsGranted(s', a, s'.held[run]);
      } else {
        assert IsGranted(s', action.attempt, s'.held[run]);
      }
    }
  }

  lemma EmptyIsSound()
    ensures Sound(EMPTY)
  {
  }

  /** The generation is current for no run. */
  predicate IsSpent(s: LeaseState, generation: Generation) {
    generation <= s.minted && forall run | run in s.held :: s.held[run] != generation
  }

  /** A minted generation that is current for no run never becomes current again. */
  lemma {:induction false} SpentStaysSpent(s: LeaseState, actions: seq<Action>, generation: Generation)
    requires Sound(s) && IsSpent(s, generation)
    ensures Sound(Play(s, actions)) && s.minted <= Play(s, actions).minted && IsSpent(Play(s, actions), generation)
    decreases actions
  {
    if actions != [] {
      StepKeepsSound(s, actions[0]);
      SpentStaysSpent(Step(s, actions[0]), actions[1..], generation);
    }
  }

  /** An attempt that was abandoned, whether or not it ever claimed, is never granted again. */
  lemma {:induction false} AbandonedIsNeverGranted(s: LeaseState, actions: seq<Action>, attempt: Attempt)
    requires attempt in s.attempts && s.attempts[attempt].AbandonedWith?
    ensures var s' := Play(s, actions);
      && attempt in s'.attempts && s'.attempts[attempt].AbandonedWith?
      && forall aborted :: Claim(s', attempt, aborted) == (ClaimAborted, s')
    decreases actions
  {
    if actions != [] {
      AbandonedIsNeverGranted(Step(s, actions[0]), actions[1..], attempt);
    }
  }

  ghost predicate HasOneOwner(s: LeaseState, run: RunId)
    requires run in s.held
  {
    exists a: Attempt :: a.run == run && IsGranted(s, a, s.held[run])
      && (forall b | Earned(s, b) == Some(s.held[run]) :: b == a)
  }

  /**
   * The lease theorem, over every order of claims, replayed claims, abandons and releases:
   * a current generation has exactly one owner and that owner was granted it and never let go;
   * and whatever a claim is answered, it is answered with a generation that is now current, which
   * is either freshly minted or the one this very attempt already earned.
   */
  lemma {:induction false} LeaseTheorem(s: LeaseState, actions: seq<Action>, next: Attempt, aborted: bool)
    requires Sound(s)
    ensures var s' := Play(s, actions);
      var (answer, s'') := Claim(s', next, aborted);
      && Sound(s') && s.minted <= s'.minted
      && (forall run | run in s'.held :: HasOneOwner(s', run))
      && (answer.Owned? ==> Holds(s'', next.run, answer.generation))
      && (answer.Owned? ==> answer.generation == s'.minted + 1 || (s'' == s' && Earned(s', next) == Some(answer.generation)))
      && (answer.Owned? ==> forall b | b != next :: Earned(s'', b) != Some(answer.generation))
    decreases actions
  {
    if actions == [] {
      StepKeepsSound(s, ClaimAction(next, aborted));
      var (answer, s'') := Claim(s, next, aborted);
      if answer.Owned? {
        assert Earned(s'', next) == Some(answer.generation);
      }
      forall run | run in s.held
        ensures HasOneOwner(s, run)
      {
        var a: Attempt :| a.run == run && IsGranted(s, a, s.held[run]);
        assert Earned(s, a) == Some(s.held[run]);
      }
    } else {
      StepKeepsSound(s, actions[0]);
      LeaseTheorem(Step(s, actions[0]), actions[1..], next, aborted);
    }
  }

  /** An attempt abandoned before it ever claimed is refused whenever it does claim. */
  lemma AbandonBeforeClaim(s: LeaseState, attempt: Attempt, later: seq<Action>, aborted: bool)
    requires attempt !in s.attempts
    ensures Claim(Play(Abandon(s, attempt), later), attempt, aborted).0 == ClaimAborted
  {
    AbandonedIsNeverGranted(Abandon(s, attempt), later, attempt);
  }

  /** The generation a step takes away from its run is spent. */
  lemma LostIsSpent(s: LeaseState, action: Action, run: RunId)
    requires Sound(s) && run in s.held && !Holds(Step(s, action), run, s.held[run])
    ensures IsSpent(Step(s, action), s.held[run])
  {
    var a: Attempt :| a.run == run && IsGranted(s, a, s.held[run]);
    assert Earned(s, a) == Some(s.held[run]);
    forall r | r in s.held && r != run
      ensures s.held[r] != s.held[run]
    {
      var b: Attempt :| b.run == r && IsGranted(s, b, s.held[r]);
      assert Earned(s, b) == Some(s.held[r]);
    }
  }

  /** Whatever took its currency from a generation, no run has it in any later state. */
  lemma LosingCurrencyIsForever(before: seq<Action>, action: Action, later: seq<Action>, run: RunId)
    requires var s := Play(EMPTY, before); run in s.held && !Holds(Step(s, action), run, s.held[run])
    ensures var s := Play(EMPTY, before);
      forall r :: !Holds(Play(Step(s, action), later), r, s.held[run])
  {
    var s := Play(EMPTY, before);
    EmptyIsSound();
    LeaseTheorem(EMPTY, before, Attempt(run, ""), false);
    StepKeepsSound(s, action);
    LostIsSpent(s, action, run);
    SpentStaysSpent(Step(s, action), later, s.held[run]);
  }

  lemma StillOwned(s: LeaseState, action: Action, owner: Attempt, generation: Generation)
    requires Sound(s) && Holds(s, owner.run, generation) && IsGranted(s, owner, generation)
    ensures action != ReleaseAction(owner.run, generation) && action != AbandonAction(owner) ==>
      Holds(Step(s, action), owner.run, generation) && IsGranted(Step(s, action), owner, generation)
    ensures action == ReleaseAction(owner.run, generation) || action == AbandonAction(owner) ==>
      !Holds(Step(s, action), owner.run, generation)
  {
    assert Earned(s, owner) == Some(generation);
    if action.AbandonAction? && action.attempt != owner {
      assert Earned(s, action.attempt) != Some(generation);
    }
  }

  /**
   * Exactly what ends an ownership: a release of its generation or an abandon of the very attempt
   * that was granted it. Nothing any other attempt does can.
   */
  lemma {:induction false} HeldExactly(s: LeaseState, actions: seq<Action>, owner: Attempt, generation: Generation)
    requires Sound(s) && Holds(s, owner.run, generation) && IsGranted(s, owner, generation)
    ensures Holds(Play(s, actions), owner.run, generation)
      <==> ReleaseAction(owner.run, generation) !in actions && AbandonAction(owner) !in actions
    decreases actions
  {
    if actions != [] {
      StepKeepsSound(s, actions[0]);
      StillOwned(s, actions[0], owner, generation);
      assert actions == [actions[0]] + actions[1..];
      if Holds(Step(s, actions[0]), owner.run, generation) {
        HeldExactly(Step(s, actions[0]), actions[1..], owner, generation);
      } else {
        LostIsSpent(s, actions[0], owner.run);
        SpentStaysSpent(Step(s, actions[0]), actions[1..], generation);
      }
    }
  }

  lemma {:induction false} PlaySplits(s: LeaseState, actions: seq<Action>, last: Action)
    ensures Play(s, actions + [last]) == Step(Play(s, actions), last)
    decreases actions
  {
    if actions == [] {
      assert [last][1..] == [];
    } else {
      assert (actions + [last])[1..] == actions[1..] + [last];
      PlaySplits(Step(s, actions[0]), actions[1..], last);
    }
  }
}
