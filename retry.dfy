/** `retryWithExponentialBackoff`: a bounded retry loop with two triggers, a
    thrown error and an empty array returned as the result. Real time is not
    modelled: each sleep is recorded as its duration in milliseconds, and the
    operation is a script that says what its i-th call does. */
module Retry {

  /** What one call of the operation did. `isEmptyArray` is
      `Array.isArray(result) && result.length === 0`. */
  datatype Attempt<T> = Returned(value: T, isEmptyArray: bool) | Threw(error: string)

  /** How the helper finished: it returned a value, rethrew the error of its
      last call, or fell out of the loop and threw 'Max retries reached'. */
  datatype RetryOutcome<T> = Value(value: T) | Rethrown(error: string) | MaxRetriesReached

  const MaxRetriesMessage := "Max retries reached"

  /** The default of the `maxRetries` parameter, the same in both versions of the agent. */
  const DefaultMaxRetries := 5

  /** A whole run: the outcome, how many times the operation was called and
      the sleeps taken, in order. */
  datatype Run<T> = Run(outcome: RetryOutcome<T>, calls: nat, waits: seq<nat>)

  /** `Math.pow(2, i)` on natural numbers. */
  function Pow2(i: nat): (r: nat)
    ensures r >= 1
  {
    if i == 0 then 1 else 2 * Pow2(i - 1)
  }

  /** The sleep taken after a failed or empty attempt number `i` (counted from 0). */
  function Delay(initialDelay: nat, i: nat): nat
  {
    initialDelay * Pow2(i)
  }

  /** Whether attempt `i` ends the loop: a non-empty result always does, an
      empty result or a throw only on the last attempt. */
  predicate Decisive<T>(a: Attempt<T>, i: nat, maxRetries: int)
  {
    match a
    case Returned(_, empty) => !empty || i == maxRetries - 1
    case Threw(_) => i == maxRetries - 1
  }

  /** What the loop does with a decisive attempt. */
  function Finish<T>(a: Attempt<T>): RetryOutcome<T>
  {
    match a
    case Returned(v, _) => Value(v)
    case Threw(e) => Rethrown(e)
  }

  /** The loop from iteration `i` on: the reference definition the method is proved against. */
  function RetryFrom<T>(op: nat -> Attempt<T>, maxRetries: int, initialDelay: nat, i: nat): Run<T>
    decreases if i < maxRetries then maxRetries - i else 0
  {
    if maxRetries <= i then Run(MaxRetriesReached, 0, [])
    else if Decisive(op(i), i, maxRetries) then Run(Finish(op(i)), 1, [])
    else
      var rest := RetryFrom(op, maxRetries, initialDelay, i + 1);
      Run(rest.outcome, rest.calls + 1, [Delay(initialDelay, i)] + rest.waits)
  }

  function RetrySpec<T>(op: nat -> Attempt<T>, maxRetries: int, initialDelay: nat): Run<T>
  {
    RetryFrom(op, maxRetries, initialDelay, 0)
  }

  /** The retry loop itself: call, inspect, sleep `initialDelay * 2^i`, go on. */
  method RetryWithExponentialBackoff<T>(op: nat -> Attempt<T>, maxRetries: int, initialDelay: nat)
    returns (outcome: RetryOutcome<T>, calls: nat, waits: seq<nat>)
    ensures Run(outcome, calls, waits) == RetrySpec(op, maxRetries, initialDelay)
  {
    var i: nat := 0;
    calls, waits := 0, [];
    while i < maxRetries
      invariant calls == i && |waits| == i
      invariant Prepended(calls, waits, RetryFrom(op, maxRetries, initialDelay, i)) == RetrySpec(op, maxRetries, initialDelay)
      decreases maxRetries - i
    {
      var attempt := op(i);
      calls := calls + 1;
      match attempt {
        case Returned(result, empty) =>
          if empty && i < maxRetries - 1 {
            RetryFromStep(op, maxRetries, initialDelay, i, calls - 1, waits);
            waits := waits + [initialDelay * Pow2(i)];
            i := i + 1;
            continue;
          }
          outcome := Value(result);
          return;
        case Threw(error) =>
          if i == maxRetries - 1 {
            outcome := Rethrown(error);
            return;
          }
          RetryFromStep(op, maxRetries, initialDelay, i, calls - 1, waits);
          waits := waits + [initialDelay * Pow2(i)];
      }
      i := i + 1;
    }
    outcome := MaxRetriesReached;
  }

  /** A run preceded by `calls` earlier calls and the sleeps `waits`. */
  function Prepended<T>(calls: nat, waits: seq<nat>, rest: Run<T>): Run<T>
  {
    Run(rest.outcome, calls + rest.calls, waits + rest.waits)
  }

  /** One non-decisive iteration moves one call and one sleep from the rest of the run to its prefix. */
  lemma RetryFromStep<T>(op: nat -> Attempt<T>, maxRetries: int, initialDelay: nat, i: nat, calls: nat, waits: seq<nat>)
    requires i < maxRetries && !Decisive(op(i), i, maxRetries)
    ensures Prepended(calls, waits, RetryFrom(op, maxRetries, initialDelay, i))
         == Prepended(calls + 1, waits + [Delay(initialDelay, i)], RetryFrom(op, maxRetries, initialDelay, i + 1))
  {
    var rest := RetryFrom(op, maxRetries, initialDelay, i + 1);
    assert waits + ([Delay(initialDelay, i)] + rest.waits) == (waits + [Delay(initialDelay, i)]) + rest.waits;
  }

  /** From any iteration `i` inside the bound, the loop stops at the first
      decisive attempt at or after `i`, having slept `initialDelay * 2^j` after
      every earlier attempt `j`, and finishes with that attempt's value or error. */
  lemma RetryFromStopsAtFirstDecisive<T>(op: nat -> Attempt<T>, maxRetries: int, initialDelay: nat, i: nat)
    requires i < maxRetries
    ensures var r := RetryFrom(op, maxRetries, initialDelay, i);
      && 1 <= r.calls && i + r.calls <= maxRetries
      && Decisive(op(i + r.calls - 1), i + r.calls - 1, maxRetries)
      && (forall j :: i <= j < i + r.calls - 1 ==> !Decisive(op(j), j, maxRetries))
      && r.outcome == Finish(op(i + r.calls - 1))
      && |r.waits| == r.calls - 1
      && (forall k :: 0 <= k < |r.waits| ==> r.waits[k] == Delay(initialDelay, i + k))
  {
    RetryFromDecisive(op, maxRetries, initialDelay, i);
    RetryFromWaits(op, maxRetries, initialDelay, i);
  }

  lemma {:induction false} RetryFromDecisive<T>(op: nat -> Attempt<T>, maxRetries: int, initialDelay: nat, i: nat)
    requires i < maxRetries
    ensures var r := RetryFrom(op, maxRetries, initialDelay, i);
      && 1 <= r.calls && i + r.calls <= maxRetries
      && Decisive(op(i + r.calls - 1), i + r.calls - 1, maxRetries)
      && (forall j :: i <= j < i + r.calls - 1 ==> !Decisive(op(j), j, maxRetries))
      && r.outcome == Finish(op(i + r.calls - 1))
    decreases maxRetries - i
  {
    if !Decisive(op(i), i, maxRetries) {
      assert i < maxRetries - 1;
      RetryFromDecisive(op, maxRetries, initialDelay, i + 1);
    }
  }

  /** Every attempt but the last is followed by its sleep, in attempt order. */
  lemma {:induction false} RetryFromWaits<T>(op: nat -> Attempt<T>, maxRetries: int, initialDelay: nat, i: nat)
    requires i < maxRetries
    ensures var r := RetryFrom(op, maxRetries, initialDelay, i);
      && |r.waits| + 1 == r.calls
      && (forall k :: 0 <= k < |r.waits| ==> r.waits[k] == Delay(initialDelay, i + k))
    decreases maxRetries - i
  {
    if !Decisive(op(i), i, maxRetries) {
      assert i < maxRetries - 1;
      var rest := RetryFrom(op, maxRetries, initialDelay, i + 1);
      assert RetryFrom(op, maxRetries, initialDelay, i) == Run(rest.outcome, rest.calls + 1, [Delay(initialDelay, i)] + rest.waits);
      RetryFromWaits(op, maxRetries, initialDelay, i + 1);
      var w := [Delay(initialDelay, i)] + rest.waits;
      assert forall k :: 0 < k < |w| ==> w[k] == rest.waits[k - 1];
    }
  }

  /** The whole helper: with `maxRetries >= 1` the operation is called at most
      `maxRetries` times, the run stops at the first decisive attempt and
      returns or rethrows exactly what that attempt produced, and sleep `k`
      lasts `initialDelay * 2^k`. */
  lemma RetryStopsAtFirstDecisive<T>(op: nat -> Attempt<T>, maxRetries: int, initialDelay: nat)
    requires maxRetries >= 1
    ensures var r := RetrySpec(op, maxRetries, initialDelay);
      && 1 <= r.calls <= maxRetries
      && Decisive(op(r.calls - 1), r.calls - 1, maxRetries)
      && (forall j :: 0 <= j < r.calls - 1 ==> !Decisive(op(j), j, maxRetries))
      && r.outcome == Finish(op(r.calls - 1))
      && r.outcome != MaxRetriesReached
      && |r.waits| == r.calls - 1
      && (forall k :: 0 <= k < |r.waits| ==> r.waits[k] == Delay(initialDelay, k))
  {
    RetryFromStopsAtFirstDecisive(op, maxRetries, initialDelay, 0);
  }

  /** 'Max retries reached' is thrown exactly when `maxRetries <= 0`, and then
      the operation is never called. */
  lemma RetryMaxReachedIff<T>(op: nat -> Attempt<T>, maxRetries: int, initialDelay: nat)
    ensures var r := RetrySpec(op, maxRetries, initialDelay);
      && (r.outcome == MaxRetriesReached <==> maxRetries <= 0)
      && (maxRetries <= 0 ==> r.calls == 0 && r.waits == [])
  {
    if maxRetries >= 1 {
      RetryStopsAtFirstDecisive(op, maxRetries, initialDelay);
    }
  }

  /** A non-empty result is returned by the attempt that produced it: no later call happens. */
  lemma RetryReturnsFirstNonEmpty<T>(op: nat -> Attempt<T>, maxRetries: int, initialDelay: nat, n: nat)
    requires n < maxRetries && op(n).Returned? && !op(n).isEmptyArray
    requires forall j :: 0 <= j < n ==> !Decisive(op(j), j, maxRetries)
    ensures var r := RetrySpec(op, maxRetries, initialDelay);
      r.outcome == Value(op(n).value) && r.calls == n + 1
  {
    RetryStopsAtFirstDecisive(op, maxRetries, initialDelay);
    var r := RetrySpec(op, maxRetries, initialDelay);
    assert Decisive(op(n), n, maxRetries);
    assert r.calls - 1 <= n;
  }

  /** An operation that keeps returning an empty array is called `maxRetries`
      times and its last empty result is returned, not an error. */
  lemma RetryAlwaysEmpty<T>(op: nat -> Attempt<T>, maxRetries: int, initialDelay: nat)
    requires maxRetries >= 1
    requires forall j :: 0 <= j < maxRetries ==> op(j).Returned? && op(j).isEmptyArray
    ensures var r := RetrySpec(op, maxRetries, initialDelay);
      r.outcome == Value(op(maxRetries - 1).value) && r.calls == maxRetries
      && |r.waits| == maxRetries - 1
  {
    RetryStopsAtFirstDecisive(op, maxRetries, initialDelay);
  }

  /** An operation that always throws is called `maxRetries` times and the
      error of the last call is rethrown unchanged. */
  lemma RetryAlwaysThrowing<T>(op: nat -> Attempt<T>, maxRetries: int, initialDelay: nat)
    requires maxRetries >= 1
    requires forall j :: 0 <= j < maxRetries ==> op(j).Threw?
    ensures var r := RetrySpec(op, maxRetries, initialDelay);
      r.outcome == Rethrown(op(maxRetries - 1).error) && r.calls == maxRetries
      && |r.waits| == maxRetries - 1
  {
    RetryStopsAtFirstDecisive(op, maxRetries, initialDelay);
  }

  /** Two throws followed by a non-empty result: three calls, two sleeps of
      `initialDelay` and `2 * initialDelay`, and the third call's value. */
  lemma RetryThrowsTwiceThenSucceeds<T>(op: nat -> Attempt<T>, maxRetries: int, initialDelay: nat, v: T)
    requires maxRetries >= 3
    requires op(0).Threw? && op(1).Threw? && op(2) == Returned(v, false)
    ensures RetrySpec(op, maxRetries, initialDelay) == Run(Value(v), 3, [initialDelay, 2 * initialDelay])
  {
    assert RetryFrom(op, maxRetries, initialDelay, 2) == Run(Value(v), 1, []);
    assert RetryFrom(op, maxRetries, initialDelay, 1) == Run(Value(v), 2, [Delay(initialDelay, 1)]);
    assert Delay(initialDelay, 0) == initialDelay && Delay(initialDelay, 1) == 2 * initialDelay;
  }

  /** Two empty arrays followed by a non-empty one: the third result is
      returned after three calls and nothing is thrown. */
  lemma RetryEmptyTwiceThenResult<T>(op: nat -> Attempt<T>, maxRetries: int, initialDelay: nat, v: T)
    requires maxRetries >= 3
    requires op(0).Returned? && op(0).isEmptyArray && op(1).Returned? && op(1).isEmptyArray
    requires op(2) == Returned(v, false)
    ensures RetrySpec(op, maxRetries, initialDelay) == Run(Value(v), 3, [initialDelay, 2 * initialDelay])
  {
    assert RetryFrom(op, maxRetries, initialDelay, 2) == Run(Value(v), 1, []);
    assert RetryFrom(op, maxRetries, initialDelay, 1) == Run(Value(v), 2, [Delay(initialDelay, 1)]);
    assert Delay(initialDelay, 0) == initialDelay && Delay(initialDelay, 1) == 2 * initialDelay;
  }

  function Sum(xs: seq<nat>): nat
  {
    if xs == [] then 0 else xs[0] + Sum(xs[1..])
  }

  /** The sleeps form a geometric series, so a run that made `calls` calls
      slept `initialDelay * (2^(calls-1) - 1)` milliseconds in total. */
  lemma {:induction false} RetryTotalWait<T>(op: nat -> Attempt<T>, maxRetries: int, initialDelay: nat)
    requires maxRetries >= 1
    ensures var r := RetrySpec(op, maxRetries, initialDelay);
      Sum(r.waits) + initialDelay == initialDelay * Pow2(r.calls - 1)
  {
    RetryStopsAtFirstDecisive(op, maxRetries, initialDelay);
    var r := RetrySpec(op, maxRetries, initialDelay);
    GeometricSum(r.waits, initialDelay, 0);
  }

  lemma {:induction false} GeometricSum(ws: seq<nat>, d: nat, from: nat)
    requires forall k :: 0 <= k < |ws| ==> ws[k] == Delay(d, from + k)
    ensures Sum(ws) + Delay(d, from) == Delay(d, from + |ws|)
    decreases |ws|
  {
    if ws != [] {
      GeometricSum(ws[1..], d, from + 1);
      assert Delay(d, from + 1) == 2 * Delay(d, from);
    }
  }
}
