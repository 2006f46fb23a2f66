/** The retry engine of `RetryingOperation` (PeakOperation/Core/RetryingOperation.swift):
    what `finish()` decides from the output and the failure count, the built-in strategies, and
    the whole run of an operation whose body fails or succeeds synchronously. */
module Retrying {
  import opened Results

  /** `StrategyBlock`: given the failure count and the error, whether to try again. */
  type StrategyBlock = (int, Error) -> bool

  /** `RetryStrategy.none`: never retry. */
  function NoRetry(): (s: StrategyBlock)
    ensures forall n, e :: !s(n, e)
  {
    (n: int, e: Error) => false
  }

  /** `RetryStrategy.repeat(times:)`: retry while the failure count is at most `times`. */
  function Repeat(times: int): (s: StrategyBlock)
    ensures forall n, e :: s(n, e) <==> n <= times
  {
    (attemptCount: int, e: Error) => attemptCount <= times
  }

  /** What `finish()` decides. */
  datatype Decision = Decision(failureCount: nat, retry: bool)

  /** The decision of `finish()`: a failure counts one more failure and asks the strategy
      with the new count; a success keeps the count and finishes normally. */
  function OnFinish<T>(output: Result<T>, failureCount: nat, strategy: StrategyBlock): (d: Decision)
    ensures output.Success? ==> d == Decision(failureCount, false)
    ensures output.Failure? ==> d.failureCount == failureCount + 1
                                && (d.retry <==> strategy(failureCount + 1, output.error))
  {
    match output
    case Success(_) => Decision(failureCount, false)
    case Failure(e) => Decision(failureCount + 1, strategy(failureCount + 1, e))
  }

  /** The observable state of a retrying operation whose body sets `output := attempt(k)` on its
      k-th run (counting from 0) and then calls `finish()`, as the test's `TestRetryOperation`
      does. `consulted` counts the calls of the strategy. */
  datatype RetryRun<T> = RetryRun(output: Result<T>, failureCount: nat, runs: nat, consulted: nat, finished: bool)

  /** A new operation: `output` is `noResult` and `failureCount` is 0. */
  function Fresh<T>(): (r: RetryRun<T>)
    ensures r.output == Failure(NoResult) && r.failureCount == 0 && r.runs == 0 && !r.finished
  {
    RetryRun(NoResultYet(), 0, 0, 0, false)
  }

  /** One `execute()` and what its `finish()` leads to, repeated while the strategy asks for a
      retry. Each retry re-runs the body in place of finishing. `fuel` bounds the number of
      retries; when it runs out the operation is left unfinished. */
  function RunToCompletion<T>(strategy: StrategyBlock, attempt: nat -> Result<T>, s: RetryRun<T>, fuel: nat)
    : (r: RetryRun<T>)
    ensures r.runs > s.runs && r.output == attempt(r.runs - 1)
    ensures r.failureCount - s.failureCount == r.consulted - s.consulted <= r.runs - s.runs
    ensures r.finished && r.output.Failure? ==> !strategy(r.failureCount, r.output.error)
    ensures !r.finished ==> r.output.Failure? && strategy(r.failureCount, r.output.error)
    decreases fuel
  {
    var out := attempt(s.runs);
    var d := OnFinish(out, s.failureCount, strategy);
    var next := RetryRun(out, d.failureCount, s.runs + 1,
                         if out.Failure? then s.consulted + 1 else s.consulted, !d.retry);
    if d.retry && fuel > 0 then RunToCompletion(strategy, attempt, next, fuel - 1) else next
  }

  /** A first run that succeeds finishes at once, with no failure counted. */
  lemma SuccessFinishesAtOnce<T>(strategy: StrategyBlock, attempt: nat -> Result<T>, fuel: nat)
    requires attempt(0).Success?
    ensures RunToCompletion(strategy, attempt, Fresh(), fuel)
         == RetryRun(attempt(0), 0, 1, 0, true)
  {
  }

  /** With a strategy that retries exactly while the count is at most `times`, an always-failing
      body that has already run `k` times (and failed each time) runs until `times + 1` runs
      in all, consulting the strategy once per failure, and then finishes with the last failure. */
  lemma {:induction false} RepeatFrom<T>(strategy: StrategyBlock, times: nat, attempt: nat -> Result<T>,
                                         k: nat, s: RetryRun<T>, fuel: nat)
    requires forall n, e :: strategy(n, e) <==> n <= times
    requires forall n :: attempt(n).Failure?
    requires s.runs == s.failureCount == s.consulted == k <= times
    requires fuel >= times - k
    ensures RunToCompletion(strategy, attempt, s, fuel)
         == RetryRun(attempt(times), times + 1, times + 1, times + 1, true)
    decreases times - k
  {
    var out := attempt(k);
    var next := RetryRun(out, k + 1, k + 1, k + 1, !(k + 1 <= times));
    if k < times {
      assert RunToCompletion(strategy, attempt, s, fuel) == RunToCompletion(strategy, attempt, next, fuel - 1);
      RepeatFrom(strategy, times, attempt, k + 1, next, fuel - 1);
    }
  }

  /** `repeat(times: n)` with an always-failing body: `n + 1` runs, then the operation finishes. */
  lemma RepeatRunsOneMoreThanTimes<T>(times: nat, attempt: nat -> Result<T>, fuel: nat)
    requires forall n :: attempt(n).Failure?
    requires fuel >= times
    ensures RunToCompletion(Repeat(times), attempt, Fresh(), fuel)
         == RetryRun(attempt(times), times + 1, times + 1, times + 1, true)
  {
    RepeatFrom(Repeat(times), times, attempt, 0, Fresh(), fuel);
  }

  /** `RetryStrategy.none` with a failing body: one run, one failure, one consultation. */
  lemma NoRetryRunsOnce<T>(attempt: nat -> Result<T>, fuel: nat)
    requires attempt(0).Failure?
    ensures RunToCompletion(NoRetry(), attempt, Fresh(), fuel) == RetryRun(attempt(0), 1, 1, 1, true)
  {
  }

  /** The retry test: strategy `failureCount < 3` with an always-failing body. By the time the
      operation finishes (and its result blocks fire) the strategy was consulted exactly 3 times. */
  lemma RetryWhileBelowThree<T>(attempt: nat -> Result<T>, fuel: nat)
    requires forall n :: attempt(n).Failure?
    requires fuel >= 2
    ensures var r := RunToCompletion((failureCount: int, e: Error) => failureCount < 3, attempt, Fresh(), fuel);
            r.finished && r.consulted == 3 && r.runs == 3 && r.output.Failure?
  {
    RepeatFrom((failureCount: int, e: Error) => failureCount < 3, 2, attempt, 0, Fresh(), fuel);
  }
}
