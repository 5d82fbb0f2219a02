/**
 * `_check_if_pickled_file_exists`: a bounded poll with exponential backoff.
 * The file system is the sequence of answers `seen(0), seen(1), ...` that
 * successive existence checks get; sleeping is recorded, not performed.
 */
module Retry {

  function Pow2(n: nat): (p: nat)
    ensures p >= 1
  {
    if n == 0 then 1 else 2 * Pow2(n - 1)
  }

  function Sum(s: seq<nat>): nat {
    if |s| == 0 then 0 else Sum(s[..|s| - 1]) + s[|s| - 1]
  }

  /** `range(NUM_RETRIES)` runs no iteration for a negative count. */
  function Attempts(numRetries: int): (n: nat)
    ensures numRetries >= 0 ==> n == numRetries
    ensures numRetries < 0 ==> n == 0
  {
    if numRetries < 0 then 0 else numRetries
  }

  /** The default of `COVERTERS_TOOLS_NUM_RETRIES`. */
  const DefaultRetries := 5

  /** How the poll ended: whether the file was seen, how many checks ran, and the sleeps taken. */
  datatype PollResult = PollResult(found: bool, observations: nat, waits: seq<nat>)

  /** The poll from attempt `t` on, with `budget` attempts in all. */
  function PollFrom(seen: nat -> bool, budget: nat, t: nat): (r: PollResult)
    requires t <= budget
    ensures t <= r.observations <= budget
    ensures r.found <==> exists u :: t <= u < budget && seen(u)
    ensures r.found ==> t < r.observations && seen(r.observations - 1)
    ensures forall u :: t <= u < r.observations - 1 ==> !seen(u)
    ensures !r.found ==> r.observations == budget
    ensures |r.waits| == (if r.found then r.observations - 1 else r.observations) - t
    ensures forall i :: 0 <= i < |r.waits| ==> r.waits[i] == Pow2(t + i + 1)
    decreases budget - t
  {
    if t == budget then PollResult(false, t, [])
    else if seen(t) then PollResult(true, t + 1, [])
    else
      var rest := PollFrom(seen, budget, t + 1);
      rest.(waits := [Pow2(t + 1)] + rest.waits)
  }

  /**
   * The whole poll: at most `NUM_RETRIES` checks, stopping at the first that
   * sees the file; after the failed check `t` it sleeps `2^(t+1)`, the last
   * one included. It never raises.
   */
  function Poll(seen: nat -> bool, numRetries: int): (r: PollResult)
    ensures r.observations <= Attempts(numRetries)
    ensures r.found <==> exists u :: 0 <= u < Attempts(numRetries) && seen(u)
    ensures r.found ==> 0 < r.observations && seen(r.observations - 1)
    ensures forall u :: 0 <= u < r.observations - 1 ==> !seen(u)
    ensures !r.found ==> r.observations == Attempts(numRetries)
    ensures |r.waits| == if r.found then r.observations - 1 else r.observations
    ensures forall i :: 0 <= i < |r.waits| ==> r.waits[i] == Pow2(i + 1)
  {
    PollFrom(seen, Attempts(numRetries), 0)
  }

  /** The sleeps `2, 4, ..., 2^k` add up to `2^(k+1) - 2`. */
  lemma {:induction false} BackoffTotal(waits: seq<nat>)
    requires forall i :: 0 <= i < |waits| ==> waits[i] == Pow2(i + 1)
    ensures Sum(waits) == Pow2(|waits| + 1) - 2
    decreases |waits|
  {
    if |waits| > 0 {
      BackoffTotal(waits[..|waits| - 1]);
    }
  }

  /** A file that never appears costs `NUM_RETRIES` checks and `2^(NUM_RETRIES+1) - 2` of sleep. */
  lemma NeverSeenWaitsFullBudget(seen: nat -> bool, numRetries: int)
    requires forall u :: !seen(u)
    ensures var r := Poll(seen, numRetries);
            && !r.found
            && r.observations == Attempts(numRetries)
            && Sum(r.waits) == Pow2(Attempts(numRetries) + 1) - 2
  {
    BackoffTotal(Poll(seen, numRetries).waits);
  }

  /** With `COVERTERS_TOOLS_NUM_RETRIES` unset, a record that never appears costs five checks and 62 of sleep. */
  lemma DefaultBudgetWait(seen: nat -> bool)
    requires forall u :: !seen(u)
    ensures var r := Poll(seen, DefaultRetries);
            && !r.found && r.observations == 5 && Sum(r.waits) == 62
  {
    NeverSeenWaitsFullBudget(seen, DefaultRetries);
    assert Pow2(6) == 64;
  }

  /** One iteration of the retry loop, seen from the poll's result. */
  lemma PollStep(seen: nat -> bool, budget: nat, t: nat, before: seq<nat>)
    requires t < budget
    ensures var here := PollFrom(seen, budget, t);
            var rest := PollFrom(seen, budget, t + 1);
            && (seen(t) ==> here.(waits := before + here.waits) == PollResult(true, t + 1, before))
            && (!seen(t) ==>
                  here.(waits := before + here.waits) == rest.(waits := (before + [Pow2(t + 1)]) + rest.waits))
  {
    var rest := PollFrom(seen, budget, t + 1);
    assert before + ([Pow2(t + 1)] + rest.waits) == (before + [Pow2(t + 1)]) + rest.waits;
  }

  /** The retry loop as written, one existence check per iteration. */
  method CheckRecordExists(seen: nat -> bool, numRetries: int)
    returns (found: bool, observations: nat, waits: seq<nat>)
    ensures PollResult(found, observations, waits) == Poll(seen, numRetries)
  {
    var budget := Attempts(numRetries);
    found, observations, waits := false, 0, [];
    var t := 0;
    while t < budget
      invariant t <= budget && observations == t && !found
      invariant var rest := PollFrom(seen, budget, t);
                PollFrom(seen, budget, 0) == rest.(waits := waits + rest.waits)
    {
      observations := t + 1;
      PollStep(seen, budget, t, waits);
      if seen(t) {
        found := true;
        return;
      }
      waits := waits + [Pow2(t + 1)];
      t := t + 1;
    }
  }
}
