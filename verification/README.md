# Metadata refresh run: a Dafny model

This project models the refresh run of the OpenSea metadata updater in `src/metadata-updater.ts`. The run works as follows:

- **Sweep.** It requests a metadata refresh for every token id from `FIRST_TOKEN_ID` to `LAST_TOKEN_ID`, in ascending order.
- **Retry queue.** Each failed request is pushed onto a retry queue.
- **Retry drain.** After the sweep the queue is drained last-in-first-out. A failed retry pushes its request back on top.
- **Pacing.** Both phases share one cumulative `requestCount`. The run waits after every request whose count is a multiple of `BUCKET_SIZE`: `LEAK_RATE` in the sweep, `RETRY_LEAK_RATE` in the retries.
- **Breaker.** Every attempt updates a consecutive-failure breaker held in module-level variables:
  - `consecutiveFailures`, `inRecovery`, `recoveryPeriodRemaining`, `recoveryPeriods`.
  - These are never reset between runs.
  - Recovery only counts; nothing reads it to slow requests down.
- **Single flight.** An `isRunning` flag makes the run single-flight.
- **Watchdog.** It empties the queue and releases the flag.

The network is replaced by an oracle `outcome: nat -> FetchOutcome` (`Ok`, `NotOk` or `Threw`), indexed by the run's request number. Waits are recorded in a ghost log of `Pause(afterRequest, rate)` events, and every attempt in a ghost log `attempted`.

Modules:

- `FailureBreaker` (`failure_breaker.dfy`): the breaker's step `Record` and its replay over a sequence of outcomes.
- `Pacing` (`pacing.dfy`): the bucket test and the pause log.
- `RetryQueue` (`retry_queue.dfy`): the sweep's requests, the failures it queues, and the LIFO drain `Drain`.
- `RunSpec` (`run_spec.dfy`): the run as functions of the outcomes:
  - `Fetched` and `Paused`: one request and one bucket test;
  - `Swept`: the first n requests of the sweep;
  - `Retried`: the retry phase;
  - `Ran`: a whole run.
- `Refresh` (`updater.dfy`): class `Updater`, whose fields are the module-level variables.
  - Methods: `FetchData`, `Abort` (the watchdog's effect), `Pace`, the loops `Sweep` and `RetryLoop`, and the run `FetchAllData`.
  - Each method is proved against the `RunSpec` functions.
- `Scenario` (`scenario.dfy`): a five-token run worked through end to end.

The watchdog is a timer in the source. Here it is a retry budget `retryFuel`. If the queue is still non-empty after that many retries, `Abort` runs. This also bounds the retry loop, which in the source has no termination measure when a request keeps failing.

## Model

| member | source | states |
|---|---|---|
| FailureBreaker.RecordSteps | src/metadata-updater.ts:89-126 | A success sets the failure count to 0. If some of a recovery period remains, the success counts it down by one, and recovery ends exactly when it reaches 0. A failure raises the count by one. A failure starts a period only when the count exceeds the limit outside recovery: remaining := period, recovery on, recoveryPeriods + 1. Otherwise recovery and remaining are unchanged |
| FailureBreaker.RecordConsistent | src/metadata-updater.ts:95-120 | With a positive recovery period one attempt keeps `inRecovery == (remaining > 0)`. A state in recovery with nothing left to count down stays stuck |
| FailureBreaker.Replay | src/metadata-updater.ts:114-121 | Over a series of attempts `recoveryPeriods` never decreases and grows by at most one per attempt |
| FailureBreaker.ReplayAppend | src/metadata-updater.ts:65-68 | The counters carry over: replaying two series one after the other is replaying their concatenation |
| FailureBreaker.ReplayKeepsConsistent | src/metadata-updater.ts:95-120 | With a positive recovery period no sequence of attempts breaks `inRecovery == (remaining > 0)` |
| FailureBreaker.NonPositivePeriodSticks | src/metadata-updater.ts:118-120 | With a period of 0 or less the remaining count never becomes positive. Once recovery is on it stays on and no further period is counted |
| FailureBreaker.FailureStreak | src/metadata-updater.ts:114-125 | k failures in a row raise the count by k. Recovery starts exactly once, when the count first exceeds the limit, unless it was already on |
| FailureBreaker.SuccessStreak | src/metadata-updater.ts:89-101 | k successes in a row: the count is 0 and no period starts. A positive remaining count drops by k, floored at 0, and recovery ends exactly when it reaches 0 |
| Pacing.PauseLogSound | src/metadata-updater.ts:176-195 | Every logged pause uses the phase's rate and follows a request in range whose cumulative count passes the bucket test |
| Pacing.PauseLogComplete | src/metadata-updater.ts:176-195 | Every request in range whose count passes the bucket test is followed by a pause |
| Pacing.PauseCount | src/metadata-updater.ts:176-195 | Requests from+1 to upTo give upTo/b − from/b pauses for a positive bucket size b, and none for b = 0 |
| Pacing.RunPauseCount | src/metadata-updater.ts:143-195 | The count is not reset between the phases, so a run of N requests pauses floor(N / b) times however they are split |
| RetryQueue.SweepRequests | src/metadata-updater.ts:169-173 | The sweep makes max(0, last − first + 1) requests |
| RetryQueue.SweepRequestsAt | src/metadata-updater.ts:169-174 | Sweep request i is for token id first + i: every id once, ascending |
| RetryQueue.FailuresNext | src/metadata-updater.ts:107-111 | One more attempt pushes its request on the end of the queue exactly when it fails |
| RetryQueue.FailuresCount | src/metadata-updater.ts:107-111 | The queue grows by exactly the number of failed attempts, and not at all when all succeed |
| RetryQueue.FailuresAscending | src/metadata-updater.ts:169-177 | Failures of an ascending request sequence are queued in ascending order |
| RetryQueue.SweepFailuresAscending | src/metadata-updater.ts:169-177 | After the sweep the queue holds the failed ids in ascending order, so the highest failed id is retried first |
| RetryQueue.Drain | src/metadata-updater.ts:184-197 | The retry loop makes at most one attempt per available outcome. It stops early only when the queue is empty |
| RetryQueue.DrainQueue | src/metadata-updater.ts:184-197 | The queue left is the original queue minus as many entries from the top as there were successful retries: a success shrinks it by one, a failure leaves it unchanged |
| RetryQueue.DrainTakesTop | src/metadata-updater.ts:184-190 | Each retry pops the current top (LIFO) |
| RetryQueue.DrainEmpty | src/metadata-updater.ts:184 | An empty queue is never retried |
| RetryQueue.DrainAllSucceed | src/metadata-updater.ts:184-197 | When every retry succeeds and there is time for them all, the queue empties and is retried in reverse order |
| RunSpec.SweptFailures | src/metadata-updater.ts:169-177 | The sweep appends its failures, in order, to the queue it found |
| RunSpec.SweptAttempts | src/metadata-updater.ts:169-177 | The sweep attempts token ids first, first+1, … in order, and leaves the lock alone |
| RunSpec.SweptBreaker | src/metadata-updater.ts:174 | The breaker sees the sweep's outcomes in order |
| RunSpec.SweptPauses | src/metadata-updater.ts:176-181 | The sweep pauses, at LEAK_RATE, exactly after the requests that pass the bucket test |
| RunSpec.SweptWhole | src/metadata-updater.ts:169-182 | After the whole sweep the queue is the old queue plus the sweep's failures, every token id has been attempted once in order, and the lock is unchanged |
| RunSpec.RetriedNext | src/metadata-updater.ts:184-197 | On a non-empty queue one retry (pop the top, fetch it, count it, bucket test at RETRY_LEAK_RATE) takes the retry phase one attempt further |
| RunSpec.RanLock | src/metadata-updater.ts:167-224 | What a run does does not depend on the lock |
| RunSpec.RunRequests | src/metadata-updater.ts:169-197 | A run leaves the queue its retries did not empty. It attempts the sweep's requests, then the retries, and leaves the lock as it was |
| RunSpec.RunBreaker | src/metadata-updater.ts:174-190 | Over a run the breaker sees every outcome of both phases in order. With a positive period it keeps its invariant |
| RunSpec.RunPauses | src/metadata-updater.ts:176-195 | A run's pauses are the sweep's at LEAK_RATE, then the retries' at RETRY_LEAK_RATE. For b > 0 there are floor(total / b) of them |
| RunSpec.NothingRetried | src/metadata-updater.ts:184 | With nothing queued and no failure in the sweep, the retry phase does nothing |
| Refresh.Updater.constructor | src/metadata-updater.ts:62-68 | The module-level state starts with an empty queue, the lock free and every counter 0 |
| Refresh.Updater.FetchData | src/metadata-updater.ts:76-128 | One request: a non-ok response or an exception pushes `{tokenId, contractAddress}` on the queue. Either way the breaker takes one `Record` step |
| Refresh.Updater.Abort | src/metadata-updater.ts:148-165 | The watchdog empties the queue and clears the lock. Nothing else changes |
| Refresh.Updater.StartAsWritten | src/metadata-updater.ts:132-140 | The guard and the start ping as written: the lock is taken before the ping, outside the try block |
| Refresh.Updater.Pace | src/metadata-updater.ts:178-181 | The bucket test on the cumulative request count, logged at the given rate |
| Refresh.Updater.FetchAllData | src/metadata-updater.ts:131-225 | Single flight: a call during a run changes nothing. Every other call ends with the lock free, a rejected start ping included, as in the corrected start of the finding below (the ping inside the try block). The run's state is the sweep then the retries. The request count is the sweep's plus one per retry. totalFetched is the sweep's attempt count. The retries never exceed the budget, and the watchdog fires exactly when the queue is not empty after it, and empties it. The status follows the completion ping. With no failures and an empty queue nothing is retried |
| Refresh.Updater.RunLocked | src/metadata-updater.ts:167-200 | The body of the run under the lock: the sweep, then at most `retryFuel` retries, the watchdog exactly when the queue is still not empty, and the lock released |
| Refresh.Updater.Sweep | src/metadata-updater.ts:169-182 | The sweep loop: both counters end at the number of token ids, and the state is the sweep's |
| Refresh.Updater.RetryFailed | src/metadata-updater.ts:184-199 | The retry phase with the watchdog: it stops with an empty queue, or aborts after the retry budget |
| Refresh.Updater.RetryLoop | src/metadata-updater.ts:184-197 | The retry loop: one request per pop, ending on an empty queue or an exhausted budget, with the state the retry phase's |
| Refresh.Updater.RetryNext | src/metadata-updater.ts:185-195 | One pass: pop the last entry, fetch it, count it, bucket test at RETRY_LEAK_RATE |
| Refresh.StuckLock | src/metadata-updater.ts:132-140 | As written, a rejected start ping leaves the lock taken, so the next run is refused |
| Refresh.LockReleased | src/metadata-updater.ts:211-224 | With the ping inside the try block the failed run releases the lock and the next run goes ahead |
| Scenario.FiveTokens | src/metadata-updater.ts:169-197 | Token ids 1 to 5, bucket 2, with 2 and 4 failing once. The queue after the sweep is [2, 4]; 4 is retried before 2; pauses follow requests 2, 4 and 6; no recovery period starts |
| Scenario.FiveTokenRun | src/metadata-updater.ts:131-225 | The same run on a fresh updater reports 7 requests, 5 tokens fetched, 0 recovery periods, completed, no timeout |

## Left out

- HTTP requests to OpenSea and to the health-check URL, URL and header construction, and JSON parsing. Each request becomes an outcome from the oracle and each ping a delivered/rejected flag.
- A rejection of the `/fail` ping inside the catch block (lines 206-210) is not modelled. The run's lock is released by `finally` either way.
- `src/get721TokenCount.ts` is not part of this model: `LAST_TOKEN_ID` is an input of the run.
- The Express route and the cron schedule. They only trigger the run, behind the same `isRunning` check that `FetchAllData` models.
- Logging (`console`, `fs.appendFileSync`), `Date.now`, elapsed time, and the length of each delay. A delay is a logged `Pause` with its rate.
- Refresh.Updater.FetchAllData: on a rejected start ping it follows the corrected code, with the ping inside the try block, so the run reports Failed and releases the lock. The code as written, where the call throws with the lock held and writes no summary, is modelled by `Refresh.Updater.StartAsWritten` and `Refresh.StuckLock`.
- Refresh.Updater.FetchAllData: the watchdog fires only between retries, after `retryFuel` of them. Two things are not modelled:
  - a timer firing during the sweep, where the source clears the queue while the sweep keeps pushing;
  - a timer firing during a retry's request, where the popped request can be pushed back after the queue was cleared.
- The race between the timer and `clearTimeout`, and the concurrent second call racing on `isRunning`. Calls are sequential here.
- Environment parsing and `checkEnvVariables`. Configuration values are parameters, and integers are unbounded `int`. A `NaN` or fractional `BUCKET_SIZE` is not modelled. A bucket size of 0 never pauses, as `n % 0` is `NaN` in the source.
- Where the design and the code disagree, the code is followed:
  - Recovery does not slow the run down: `inRecovery` is never read for pacing.
  - The invariant `inRecovery == (remaining > 0)` holds only for a positive recovery period (`ReplayKeepsConsistent`, `NonPositivePeriodSticks`).
  - A success counts recovery down when `recoveryPeriodRemaining > 0`, not when `inRecovery` is set.
  - After a timeout the run still logs "completed successfully"; the timeout is the report's `timedOut` flag.
  - The breaker counters are never reset between runs.
  - `totalFetched` counts sweep attempts, not successes.

## Findings

| source | as written | input that shows it | evidently intended | confidence | as-written member | corrected member |
|---|---|---|---|---|---|---|
| src/metadata-updater.ts:135-140 | `isRunning` is set before the start health-check ping, and the ping is awaited outside the `try`/`finally` that releases the lock | `HEALTHCHECKS_ACTIVE` set and the `/start` POST rejects: the run throws with `isRunning` still true, and every later call returns at once | The ping is inside the `try`, so a failed ping fails the run and `finally` releases the lock | not executed | Refresh.StuckLock | Refresh.LockReleased |
