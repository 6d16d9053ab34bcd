/**
 * The bounded retry policy of `execute_with_retry` (agent service) and of the profile
 * fetch in `get_user_info` (auth service): up to a fixed number of calls, retrying only
 * connection errors, sleeping 0.5·(attempt+1) s between calls.
 */
module Retry {
  import opened Wrappers

  /** What one call of the wrapped store operation does. */
  datatype Attempt<T> =
    | Succeeds(value: T)     // the operation returned
    | Transient              // httpx ReadError, ConnectError or TimeoutException
    | Fatal(error: Err)      // any other exception

  /** How the whole retry loop ends. */
  datatype Outcome<T> =
    | Returned(value: T)     // the first successful call's value
    | Reraised(error: Err)   // a non-transient error, propagated unchanged
    | Unavailable            // HTTP 503 after the last transient failure
    | NoCall                 // max_retries <= 0: the loop body never runs, Python returns None

  /** Milliseconds slept after failed attempt number `attempt` (0-based). */
  function DelayAfter(attempt: nat): nat
  {
    500 * (attempt + 1)
  }

  /** The sleeps performed before call number `calls` is made: one after each earlier call. */
  function Delays(calls: nat): (d: seq<nat>)
    ensures |d| == calls
    ensures forall i :: 0 <= i < calls ==> d[i] == DelayAfter(i)
  {
    if calls == 0 then [] else Delays(calls - 1) + [DelayAfter(calls - 1)]
  }

  /** Index of the first call, from `k` on and below `max`, that does not fail transiently; `max` if none. */
  function FirstSettled<T>(outcome: nat -> Attempt<T>, max: nat, k: nat): (i: nat)
    requires k <= max
    ensures k <= i <= max
    ensures forall j :: k <= j < i ==> outcome(j).Transient?
    ensures i < max ==> !outcome(i).Transient?
    decreases max - k
  {
    if k == max || !outcome(k).Transient? then k else FirstSettled(outcome, max, k + 1)
  }

  /** What the retry loop returns or raises. */
  function Spec<T>(outcome: nat -> Attempt<T>, max: nat): Outcome<T>
  {
    if max == 0 then NoCall
    else
      var i := FirstSettled(outcome, max, 0);
      if i == max then Unavailable
      else match outcome(i)
        case Succeeds(v) => Returned(v)
        case Fatal(e) => Reraised(e)
        case Transient => Unavailable
  }

  /** How many times the operation is called. */
  function Calls<T>(outcome: nat -> Attempt<T>, max: nat): nat
  {
    if max == 0 then 0
    else
      var i := FirstSettled(outcome, max, 0);
      if i == max then max else i + 1
  }

  /** The loop as written: one call per iteration, sleeping only when another try remains. */
  method ExecuteWithRetry<T>(outcome: nat -> Attempt<T>, maxRetries: nat)
    returns (r: Outcome<T>, calls: nat, slept: seq<nat>)
    ensures r == Spec(outcome, maxRetries)
    ensures calls == Calls(outcome, maxRetries)
    ensures slept == Delays(if calls == 0 then 0 else calls - 1)
  {
    r, calls, slept := NoCall, 0, [];
    var attempt := 0;
    while attempt < maxRetries
      invariant 0 <= attempt <= maxRetries
      invariant calls == attempt && slept == Delays(attempt)
      invariant forall j :: 0 <= j < attempt ==> outcome(j).Transient?
      invariant attempt > 0 ==> attempt < maxRetries
    {
      calls := calls + 1;
      match outcome(attempt) {
        case Succeeds(v) =>
          r := Returned(v);
          assert FirstSettled(outcome, maxRetries, 0) == attempt by { FirstSettledAt(outcome, maxRetries, 0, attempt); }
          return;
        case Fatal(e) =>
          r := Reraised(e);
          assert FirstSettled(outcome, maxRetries, 0) == attempt by { FirstSettledAt(outcome, maxRetries, 0, attempt); }
          return;
        case Transient =>
          if attempt < maxRetries - 1 {
            slept := slept + [DelayAfter(attempt)];
            attempt := attempt + 1;
          } else {
            r := Unavailable;
            assert FirstSettled(outcome, maxRetries, 0) == maxRetries by { FirstSettledAt(outcome, maxRetries, 0, maxRetries); }
            return;
          }
      }
    }
  }

  /** FirstSettled is the unique index the loop stops at. */
  lemma {:induction false} FirstSettledAt<T>(outcome: nat -> Attempt<T>, max: nat, k: nat, i: nat)
    requires k <= i <= max
    requires forall j :: k <= j < i ==> outcome(j).Transient?
    requires i < max ==> !outcome(i).Transient?
    ensures FirstSettled(outcome, max, k) == i
    decreases i - k
  {
    if k < i { FirstSettledAt(outcome, max, k + 1, i); }
  }

  /** The operation runs at most `max` times, and at least once when max > 0. */
  lemma CallsBounded<T>(outcome: nat -> Attempt<T>, max: nat)
    ensures Calls(outcome, max) <= max
    ensures max > 0 ==> Calls(outcome, max) >= 1
  {
  }

  /** A success on the first call returns its value with no sleep. */
  lemma {:induction false} FirstCallSucceeds<T>(outcome: nat -> Attempt<T>, max: nat)
    requires max > 0 && outcome(0).Succeeds?
    ensures Spec(outcome, max) == Returned(outcome(0).value)
    ensures Calls(outcome, max) == 1
  {
    FirstSettledAt(outcome, max, 0, 0);
  }

  /** A non-connection error is raised at once, without retrying. */
  lemma {:induction false} FatalNotRetried<T>(outcome: nat -> Attempt<T>, max: nat)
    requires max > 0 && outcome(0).Fatal?
    ensures Spec(outcome, max) == Reraised(outcome(0).error)
    ensures Calls(outcome, max) == 1
  {
    FirstSettledAt(outcome, max, 0, 0);
  }

  /** Connection errors on every call exhaust the budget and end in 503, never in a value. */
  lemma {:induction false} AllTransientUnavailable<T>(outcome: nat -> Attempt<T>, max: nat)
    requires max > 0
    requires forall j :: 0 <= j < max ==> outcome(j).Transient?
    ensures Spec(outcome, max) == Unavailable
    ensures Calls(outcome, max) == max
  {
    FirstSettledAt(outcome, max, 0, max);
  }

  /** A returned value is always that of a successful call preceded only by connection errors. */
  lemma ReturnedIsFirstSuccess<T>(outcome: nat -> Attempt<T>, max: nat)
    requires Spec(outcome, max).Returned?
    ensures exists i :: 0 <= i < max && outcome(i) == Succeeds(Spec(outcome, max).value) &&
                        (forall j :: 0 <= j < i ==> outcome(j).Transient?)
  {
    var i := FirstSettled(outcome, max, 0);
    assert outcome(i) == Succeeds(Spec(outcome, max).value);
  }

  /** With the default three attempts the waits are 0.5 s then 1 s: 1.5 s in all before the 503. */
  lemma DefaultScheduleTotal()
    ensures Delays(2) == [500, 1000]
  {
  }
}
