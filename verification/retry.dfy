/** The bounded retry loop of `MDSClientBase._request`. A script gives the
    outcome of each attempt (numbered from 0); the delay before each attempt
    is counted, not slept. */
module Retry {
  import opened Results
  import opened Configuration
  import opened Transport

  /** The outcome of attempt `k` of one request. */
  type Script = nat -> TransportOutcome

  /** How many attempts `_request` allows: at least one, else `max_attempts`. */
  function AttemptLimit(maxAttempts: int): (n: nat)
    ensures n >= 1 && n >= maxAttempts
    ensures n == 1 || n == maxAttempts
  {
    if maxAttempts < 1 then 1 else maxAttempts
  }

  /** The record of the last attempt made, how many attempts were made, and
      whether the last one succeeded. */
  datatype Run = Run(record: Record, attempts: nat, succeeded: bool)

  /** Reference definition of the retry loop, by recursion on the attempt
      number `k`: stop at the first success or after attempt `limit - 1`. */
  function RunFrom(script: Script, limit: nat, k: nat): (run: Run)
    requires k < limit
    decreases limit - k
    ensures k < run.attempts <= limit
    ensures run.record == Attempt(script(run.attempts - 1))
    ensures run.succeeded <==> IsSuccess(run.record)
  {
    var rec := Attempt(script(k));
    if IsSuccess(rec) then Run(rec, k + 1, true)
    else if k + 1 < limit then RunFrom(script, limit, k + 1)
    else Run(rec, k + 1, false)
  }

  function RetryRun(script: Script, maxAttempts: int): Run {
    RunFrom(script, AttemptLimit(maxAttempts), 0)
  }

  /** The run from attempt `k` on stops at its first success, and fails only
      once the last allowed attempt has failed. */
  lemma {:induction false} RunFromStopsAtFirstSuccess(script: Script, limit: nat, k: nat)
    requires k < limit
    decreases limit - k
    ensures var run := RunFrom(script, limit, k);
            && (forall j :: k <= j < run.attempts - 1 ==> !IsSuccess(Attempt(script(j))))
            && (!run.succeeded ==> run.attempts == limit)
  {
    if !IsSuccess(Attempt(script(k))) && k + 1 < limit {
      RunFromStopsAtFirstSuccess(script, limit, k + 1);
    }
  }

  /** Whichever attempt first succeeds within the limit decides the run:
      exactly that many attempts are made and its record is returned as is. */
  lemma FirstSuccessDecides(script: Script, maxAttempts: int, k: nat)
    requires k < AttemptLimit(maxAttempts)
    requires forall j :: 0 <= j < k ==> !IsSuccess(Attempt(script(j)))
    requires IsSuccess(Attempt(script(k)))
    ensures RetryRun(script, maxAttempts) == Run(Attempt(script(k)), k + 1, true)
  {
    RunFromStopsAtFirstSuccess(script, AttemptLimit(maxAttempts), 0);
  }

  /** When no allowed attempt succeeds, all of them are made and the run fails. */
  lemma AllFailuresExhaust(script: Script, maxAttempts: int)
    requires forall j :: 0 <= j < AttemptLimit(maxAttempts) ==> !IsSuccess(Attempt(script(j)))
    ensures RetryRun(script, maxAttempts).attempts == AttemptLimit(maxAttempts)
    ensures !RetryRun(script, maxAttempts).succeeded
  {
    RunFromStopsAtFirstSuccess(script, AttemptLimit(maxAttempts), 0);
  }

  /** What every retry run looks like: between one and `limit` attempts, all
      but the last failed, the last one's record kept, and a failed run used
      every allowed attempt. */
  lemma RetryRunShape(script: Script, maxAttempts: int)
    ensures var run := RetryRun(script, maxAttempts);
            && 1 <= run.attempts <= AttemptLimit(maxAttempts)
            && (forall j :: 0 <= j < run.attempts - 1 ==> !IsSuccess(Attempt(script(j))))
            && run.record == Attempt(script(run.attempts - 1))
            && (run.succeeded <==> IsSuccess(run.record))
            && (!run.succeeded ==> run.attempts == AttemptLimit(maxAttempts))
  {
    RunFromStopsAtFirstSuccess(script, AttemptLimit(maxAttempts), 0);
  }

  /** What `time.sleep` accepts: a non-negative number; a Python bool is
      the number 0 or 1. */
  predicate SleepAccepts(delay: Value) {
    delay.Bool? || (delay.Int? && delay.i >= 0)
  }

  /** What `time.sleep` raises for any other delay: `ValueError` for a
      negative number, `TypeError` for a value that is not a number. */
  function SleepError(delay: Value): (e: Error)
    requires !SleepAccepts(delay)
  {
    if delay.Int? then NegativeDelay(delay.i) else WrongType("delay")
  }

  /** `_request`: the do-while loop, one delay before every attempt. The
      delay is slept outside the `try`, so an unusable delay raises before
      the first attempt. Otherwise it returns the first successful record,
      or raises once the attempt that reaches `max_attempts` has failed;
      either way it agrees with the reference run. */
  method Request(script: Script, maxAttempts: int, delay: Value, endpoint: string)
    returns (r: Result<Record>, attempts: nat, sleeps: nat)
    ensures !SleepAccepts(delay) ==> r == Err(SleepError(delay)) && attempts == 0 && sleeps == 0
    ensures SleepAccepts(delay) ==> sleeps == attempts
    ensures SleepAccepts(delay) ==> attempts == RetryRun(script, maxAttempts).attempts
    ensures SleepAccepts(delay) ==> (r.Ok? <==> RetryRun(script, maxAttempts).succeeded)
    ensures SleepAccepts(delay) && r.Ok? ==> r.value == RetryRun(script, maxAttempts).record
    ensures SleepAccepts(delay) && r.Err? ==> r.error == MaxAttemptsReached(maxAttempts, endpoint)
  {
    attempts := 0;
    sleeps := 0;
    if !SleepAccepts(delay) {
      r := Err(SleepError(delay));
      return;
    }
    var limit := AttemptLimit(maxAttempts);
    while true
      invariant attempts < limit
      invariant sleeps == attempts
      invariant RunFrom(script, limit, attempts) == RetryRun(script, maxAttempts)
      decreases limit - attempts
    {
      var data := Attempt(script(attempts));
      ghost var here := RunFrom(script, limit, attempts);
      attempts := attempts + 1;
      sleeps := sleeps + 1;
      if IsSuccess(data) {
        assert here == Run(data, attempts, true);
        r := Ok(data);
        return;
      }
      if attempts < maxAttempts {
        assert here == RunFrom(script, limit, attempts);
        continue;
      }
      assert here == Run(data, attempts, false);
      r := Err(MaxAttemptsReached(maxAttempts, endpoint));
      return;
    }
  }
}
