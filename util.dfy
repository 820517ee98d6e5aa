/** The bounded-retry poller of `cloudfoundry/platform/util.py`.

    A predicate is modelled by the answers it gives, indexed by evaluation number:
    `success(k)` is what the k-th evaluation of the success condition returns (the
    first one, before any sleep, is `success(0)`) and `failure(k)` is what the k-th
    evaluation of the failure condition returns. The j-th sleep is followed by
    `success(j)` and then `failure(j - 1)`, so after `n` sleeps success has been
    evaluated `n + 1` times and failure `n` times. A sleep is counted, not timed. */
module PlatformUtil {

  /** The loop stops once it has slept `n` times: success held at its n-th evaluation,
      the budget is used up, or the failure condition fired after the n-th sleep. */
  predicate Stops(success: nat -> bool, failure: nat -> bool, maxRetries: int, n: nat) {
    success(n) || n >= maxRetries || (n > 0 && failure(n - 1))
  }

  /** The first stopping point at or after `k`. */
  function StopFrom(success: nat -> bool, failure: nat -> bool, maxRetries: int, k: nat): (n: nat)
    ensures k <= n
    ensures Stops(success, failure, maxRetries, n)
    ensures forall j :: k <= j < n ==> !Stops(success, failure, maxRetries, j)
    decreases maxRetries - k
  {
    if Stops(success, failure, maxRetries, k) then k
    else StopFrom(success, failure, maxRetries, k + 1)
  }

  /** What a call of `wait_for` amounts to: its return value and the sleeps it took. */
  datatype Polled = Polled(result: bool, sleeps: nat)

  /** The specification of `Poller.wait_for`: the loop sleeps up to the first stopping
      point and returns the success value evaluated last. */
  function Poll(success: nat -> bool, failure: nat -> bool, maxRetries: int): Polled {
    var n := StopFrom(success, failure, maxRetries, 0);
    Polled(success(n), n)
  }

  /** Two stopping points that both have no stopping point before them are the same. */
  lemma FirstStop(success: nat -> bool, failure: nat -> bool, maxRetries: int, n: nat)
    requires Stops(success, failure, maxRetries, n)
    requires forall j :: 0 <= j < n ==> !Stops(success, failure, maxRetries, j)
    ensures Poll(success, failure, maxRetries) == Polled(success(n), n)
  {
    var m := StopFrom(success, failure, maxRetries, 0);
    assert Stops(success, failure, maxRetries, m);
  }

  /** A first success answers true at once, without sleeping and without ever asking
      the failure condition. */
  lemma ZeroWaitFastPath(success: nat -> bool, failure: nat -> bool, maxRetries: int)
    requires success(0)
    ensures Poll(success, failure, maxRetries) == Polled(true, 0)
  {
    FirstStop(success, failure, maxRetries, 0);
  }

  /** The number of sleeps never exceeds the budget (and is zero for a budget of zero
      or less). */
  lemma SleepsWithinBudget(success: nat -> bool, failure: nat -> bool, maxRetries: int)
    ensures Poll(success, failure, maxRetries).sleeps <= (if maxRetries > 0 then maxRetries else 0)
  {
    var n := StopFrom(success, failure, maxRetries, 0);
    var cap: nat := if maxRetries > 0 then maxRetries else 0;
    if n > cap {
      assert Stops(success, failure, maxRetries, cap);
    }
  }

  /** With no budget there is exactly one success evaluation and its value is returned. */
  lemma NoBudgetSingleCheck(success: nat -> bool, failure: nat -> bool, maxRetries: int)
    requires maxRetries <= 0
    ensures Poll(success, failure, maxRetries) == Polled(success(0), 0)
  {
    FirstStop(success, failure, maxRetries, 0);
  }

  /** The evaluations up to the k-th sleep all let the loop go on. */
  predicate QuietUntil(success: nat -> bool, failure: nat -> bool, k: nat) {
    && (forall j :: 0 <= j < k ==> !success(j))
    && (forall j :: 0 <= j < k - 1 ==> !failure(j))
  }

  /** A failure right after the k-th sleep ends the loop there, whatever budget is left,
      and the answer is the success value evaluated just before it. */
  lemma FailureShortCircuits(success: nat -> bool, failure: nat -> bool, maxRetries: int, k: nat)
    requires 1 <= k <= maxRetries
    requires QuietUntil(success, failure, k)
    requires failure(k - 1)
    ensures Poll(success, failure, maxRetries) == Polled(success(k), k)
  {
    forall j | 0 <= j < k ensures !Stops(success, failure, maxRetries, j) {
      if j > 0 { assert !failure(j - 1); }
    }
    FirstStop(success, failure, maxRetries, k);
  }

  /** When success and failure both fire after the same sleep, success wins. */
  lemma SuccessWinsTie(success: nat -> bool, failure: nat -> bool, maxRetries: int, k: nat)
    requires 1 <= k <= maxRetries
    requires QuietUntil(success, failure, k)
    requires success(k) && failure(k - 1)
    ensures Poll(success, failure, maxRetries) == Polled(true, k)
  {
    FailureShortCircuits(success, failure, maxRetries, k);
  }

  /** When neither condition ever fires, the whole budget is slept and the answer is false. */
  lemma BudgetExhausted(success: nat -> bool, failure: nat -> bool, maxRetries: nat)
    requires forall j :: 0 <= j <= maxRetries ==> !success(j)
    requires forall j :: 0 <= j < maxRetries ==> !failure(j)
    ensures Poll(success, failure, maxRetries) == Polled(false, maxRetries)
  {
    forall j | 0 <= j < maxRetries ensures !Stops(success, failure, maxRetries, j) {
      if j > 0 { assert !failure(j - 1); }
    }
    FirstStop(success, failure, maxRetries, maxRetries);
  }

  /** `Poller`: the interval and the retry budget are set once, by the constructor. */
  class Poller {
    var waitSec: int
    var maxRetries: int

    constructor (waitSec: int, maxRetries: int)
      ensures this.waitSec == waitSec && this.maxRetries == maxRetries
    {
      this.waitSec := waitSec;
      this.maxRetries := maxRetries;
    }

    /** `wait_for`. It changes nothing (no modifies clause): `waitSec` and `maxRetries`
        keep their values. The ghost counters say how often each condition was asked. */
    method WaitFor(success: nat -> bool, failure: nat -> bool)
      returns (result: bool, sleeps: nat, ghost successCalls: nat, ghost failureCalls: nat)
      ensures Polled(result, sleeps) == Poll(success, failure, maxRetries)
      ensures successCalls == sleeps + 1 && failureCalls == sleeps
    {
      sleeps := 0;
      result := success(0);
      successCalls, failureCalls := 1, 0;
      while !result && sleeps < maxRetries
        invariant result == success(sleeps)
        invariant sleeps == 0 || !failure(sleeps - 1)
        invariant forall j :: 0 <= j < sleeps ==> !Stops(success, failure, maxRetries, j)
        invariant successCalls == sleeps + 1 && failureCalls == sleeps
        decreases maxRetries - sleeps
      {
        sleeps := sleeps + 1;
        result := success(sleeps);
        successCalls := successCalls + 1;
        var failed := failure(sleeps - 1);
        failureCalls := failureCalls + 1;
        if failed {
          break;
        }
      }
      FirstStop(success, failure, maxRetries, sleeps);
    }
  }
}
