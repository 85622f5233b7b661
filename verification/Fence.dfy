/**
 * The fencing token, enforced at the resource: one high-water mark per run.
 */
module Fence {
  import opened Options
  import opened Visibility

  type Generation = nat

  datatype RunFence = RunFence(run: RunId, generation: Generation)

  /** What a fenced operation answers: a conflict is never ownership loss. */
  datatype Answer = Accepted | StaleFence | ConflictingReplay

  type HighWater = map<RunId, Generation>

  predicate Admits(high: HighWater, fence: RunFence) {
    fence.run in high ==> high[fence.run] <= fence.generation
  }

  /** The marks after a request was presented: only ever forward, and only on admission. */
  function After(high: HighWater, fence: RunFence): HighWater {
    if !Admits(high, fence) then high
    else if fence.run in high && fence.generation <= high[fence.run] then high
    else high[fence.run := fence.generation]
  }

  function AfterAll(high: HighWater, requests: seq<RunFence>): HighWater
    decreases requests
  {
    if requests == [] then high else AfterAll(After(high, requests[0]), requests[1..])
  }

  /**
   * Once a resource has served a generation it never again admits a lower one,
   * whatever requests are presented to it afterwards, and an equal one always passes
   * until a higher one arrives.
   */
  lemma {:induction false} ServedLocksOutLower(high: HighWater, served: RunFence, later: seq<RunFence>, stale: RunFence)
    requires Admits(high, served) && stale.run == served.run && stale.generation < served.generation
    ensures !Admits(AfterAll(After(high, served), later), stale)
  {
    MarksOnlyRise(After(high, served), later, served.run);
  }

  lemma {:induction false} MarksOnlyRise(high: HighWater, requests: seq<RunFence>, run: RunId)
    requires run in high
    ensures run in AfterAll(high, requests) && high[run] <= AfterAll(high, requests)[run]
    decreases requests
  {
    if requests != [] {
      MarksOnlyRise(After(high, requests[0]), requests[1..], run);
    }
  }

  class FenceLedger {
    var high: HighWater

    constructor ()
      ensures high == map[]
    {
      high := map[];
    }

    method Refuse(fence: RunFence) returns (refused: bool)
      modifies this
      ensures refused == !Admits(old(high), fence)
      ensures high == After(old(high), fence)
    {
      if fence.run in high && fence.generation < high[fence.run] {
        return true;
      }
      if fence.run !in high || high[fence.run] < fence.generation {
        high := high[fence.run := fence.generation];
      }
      refused := false;
    }
  }
}
