/**
 * The outcome counters of one generation (Go's `Counts`).
 *
 * `Tally` is the value a snapshot or the trip predicate sees; `Counts` is the
 * object the breaker owns and updates in place.
 */
module Counters {

  datatype Tally = Tally(
    totalRequests: nat,
    totalSuccess: nat,
    totalFailures: nat,
    consecutiveSuccess: nat,
    consecutiveFailures: nat)

  /** All five counters at zero, as after `clear`. */
  const EMPTY: Tally := Tally(0, 0, 0, 0, 0)

  /** The tally after one more admitted request. */
  function Request(c: Tally): Tally {
    c.(totalRequests := c.totalRequests + 1)
  }

  /** The tally after one more success. */
  function Success(c: Tally): Tally {
    c.(totalSuccess := c.totalSuccess + 1,
       consecutiveSuccess := c.consecutiveSuccess + 1,
       consecutiveFailures := 0)
  }

  /** The tally after one more failure. */
  function Failure(c: Tally): Tally {
    c.(totalFailures := c.totalFailures + 1,
       consecutiveFailures := c.consecutiveFailures + 1,
       consecutiveSuccess := 0)
  }

  /**
   * What every tally built from EMPTY by these three steps satisfies: at
   * most one run is open, and a run is never longer than its total.
   */
  ghost predicate Consistent(c: Tally) {
    (c.consecutiveSuccess == 0 || c.consecutiveFailures == 0) &&
    c.consecutiveSuccess <= c.totalSuccess &&
    c.consecutiveFailures <= c.totalFailures
  }

  lemma StepsKeepConsistent(c: Tally)
    requires Consistent(c)
    ensures Consistent(Request(c)) && Consistent(Success(c)) && Consistent(Failure(c))
    ensures Consistent(EMPTY)
  {
  }

  /** The tally after recording `outcomes` (true = success) in order. */
  function Replay(c: Tally, outcomes: seq<bool>): Tally
    decreases |outcomes|
  {
    if outcomes == [] then c
    else
      var prev := Replay(c, outcomes[..|outcomes| - 1]);
      if outcomes[|outcomes| - 1] then Success(prev) else Failure(prev)
  }

  /** How many entries of `outcomes` equal `v`. */
  function Occurrences(outcomes: seq<bool>, v: bool): nat
    decreases |outcomes|
  {
    if outcomes == [] then 0
    else Occurrences(outcomes[..|outcomes| - 1], v) + (if outcomes[|outcomes| - 1] == v then 1 else 0)
  }

  /** The length of the longest suffix of `outcomes` whose entries all equal `v`. */
  function TrailingRun(outcomes: seq<bool>, v: bool): nat
    decreases |outcomes|
  {
    if outcomes == [] || outcomes[|outcomes| - 1] != v then 0
    else TrailingRun(outcomes[..|outcomes| - 1], v) + 1
  }

  /**
   * From zero, the totals count the successes and failures recorded, and the
   * consecutive counters are the number of successes (failures) since the
   * last failure (success). Requests are counted separately.
   */
  lemma {:induction false} ReplayFromEmpty(outcomes: seq<bool>)
    ensures var t := Replay(EMPTY, outcomes);
      t.totalRequests == 0 &&
      t.totalSuccess == Occurrences(outcomes, true) &&
      t.totalFailures == Occurrences(outcomes, false) &&
      t.consecutiveSuccess == TrailingRun(outcomes, true) &&
      t.consecutiveFailures == TrailingRun(outcomes, false)
    decreases |outcomes|
  {
    if outcomes != [] {
      ReplayFromEmpty(outcomes[..|outcomes| - 1]);
    }
  }

  /** Replaying outcomes from a consistent tally keeps it consistent. */
  lemma {:induction false} ReplayConsistent(c: Tally, outcomes: seq<bool>)
    requires Consistent(c)
    ensures Consistent(Replay(c, outcomes))
    ensures Replay(c, outcomes).totalSuccess + Replay(c, outcomes).totalFailures
         == c.totalSuccess + c.totalFailures + |outcomes|
    ensures Replay(c, outcomes).totalRequests == c.totalRequests
    decreases |outcomes|
  {
    if outcomes != [] {
      ReplayConsistent(c, outcomes[..|outcomes| - 1]);
    }
  }

  /** Go's `*Counts`: five counters updated in place. */
  class Counts {
    var totalRequests: nat
    var totalSuccess: nat
    var totalFailures: nat
    var consecutiveSuccess: nat
    var consecutiveFailures: nat

    /** The value `*c` that Go copies out of the pointer. */
    function Value(): Tally
      reads this
    {
      Tally(totalRequests, totalSuccess, totalFailures, consecutiveSuccess, consecutiveFailures)
    }

    /** `new(Counts)`: every counter zero. */
    constructor ()
      ensures Value() == EMPTY
    {
      totalRequests, totalSuccess, totalFailures := 0, 0, 0;
      consecutiveSuccess, consecutiveFailures := 0, 0;
    }

    method Clear()
      modifies this
      ensures totalRequests == 0 && totalSuccess == 0 && totalFailures == 0
      ensures consecutiveSuccess == 0 && consecutiveFailures == 0
      ensures Value() == EMPTY
    {
      totalRequests := 0;
      totalSuccess := 0;
      totalFailures := 0;
      consecutiveSuccess := 0;
      consecutiveFailures := 0;
    }

    method OnRequest()
      modifies this
      ensures totalRequests == old(totalRequests) + 1
      ensures totalSuccess == old(totalSuccess) && totalFailures == old(totalFailures)
      ensures consecutiveSuccess == old(consecutiveSuccess) && consecutiveFailures == old(consecutiveFailures)
      ensures Value() == Request(old(Value()))
    {
      totalRequests := totalRequests + 1;
    }

    method OnSuccess()
      modifies this
      ensures totalSuccess == old(totalSuccess) + 1
      ensures consecutiveSuccess == old(consecutiveSuccess) + 1 && consecutiveFailures == 0
      ensures totalRequests == old(totalRequests) && totalFailures == old(totalFailures)
      ensures Value() == Success(old(Value()))
    {
      totalSuccess := totalSuccess + 1;
      consecutiveSuccess := consecutiveSuccess + 1;
      consecutiveFailures := 0;
    }

    method OnFailure()
      modifies this
      ensures totalFailures == old(totalFailures) + 1
      ensures consecutiveFailures == old(consecutiveFailures) + 1 && consecutiveSuccess == 0
      ensures totalRequests == old(totalRequests) && totalSuccess == old(totalSuccess)
      ensures Value() == Failure(old(Value()))
    {
      totalFailures := totalFailures + 1;
      consecutiveFailures := consecutiveFailures + 1;
      consecutiveSuccess := 0;
    }
  }
}
