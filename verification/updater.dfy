/** The refresh run of the metadata updater: the module-level run state, one refresh attempt
    (`FetchData`), the watchdog's effect (`Abort`) and the whole run (`FetchAllData`). The network
    is replaced by an outcome per request, waiting by a ghost log of pauses. */
module Refresh {
  import opened FailureBreaker
  import opened Pacing
  import opened RetryQueue
  import opened RunSpec

  /** Whether each health-check ping of a run is delivered or rejects. */
  datatype Pings = Pings(startDelivered: bool, doneDelivered: bool)

  /** The status the run writes to its log. */
  datatype RunStatus = Completed | Failed

  /** What a call of the run leaves in the log: nothing when a run is already in progress,
      otherwise the status and the counts of the summary line, and whether the watchdog fired. */
  datatype RunReport =
    | AlreadyRunning
    | Finished(status: RunStatus, requestCount: nat, totalFetched: nat, recoveryPeriods: nat, timedOut: bool)

  class Updater {
    const cfg: Config

    // The module-level run state
    var failedRequests: seq<Request>
    var isRunning: bool
    var inRecovery: bool
    var consecutiveFailures: nat
    var recoveryPeriodRemaining: int
    var recoveryPeriods: nat

    /** Every request attempted, in order. */
    ghost var attempted: seq<Request>
    /** Every wait taken, in order. */
    ghost var pauses: seq<Pause>

    /** The breaker's four counters. */
    function Breaker(): BreakerState
      reads this
    {
      BreakerState(consecutiveFailures, inRecovery, recoveryPeriodRemaining, recoveryPeriods)
    }

    /** All of the run state. */
    ghost function State(): RunState
      reads this
    {
      RunState(failedRequests, isRunning, Breaker(), attempted, pauses)
    }

    constructor (cfg: Config)
      ensures this.cfg == cfg
      ensures State() == RunState([], false, INITIAL, [], [])
    {
      this.cfg := cfg;
      failedRequests := [];
      isRunning := false;
      inRecovery := false;
      consecutiveFailures := 0;
      recoveryPeriodRemaining := 0;
      recoveryPeriods := 0;
      attempted := [];
      pauses := [];
    }

    /** One refresh request for `tokenId`: a failure of either kind pushes the request on the
        end of the retry queue; either way the breaker's counters take one step (`Record`). */
    method FetchData(tokenId: int, contractAddress: string, outcome: FetchOutcome)
      modifies this
      ensures State() == Fetched(cfg, old(State()), Request(tokenId, contractAddress), outcome.Ok?)
    {
      var requestSuccessful := false;
      match outcome {
        case Ok =>
          requestSuccessful := true;
          consecutiveFailures := 0;
          if recoveryPeriodRemaining > 0 {
            recoveryPeriodRemaining := recoveryPeriodRemaining - 1;
            if recoveryPeriodRemaining == 0 {
              inRecovery := false;
            }
          }
        case NotOk =>
          failedRequests := failedRequests + [Request(tokenId, contractAddress)];
        case Threw =>
          failedRequests := failedRequests + [Request(tokenId, contractAddress)];
      }
      if !requestSuccessful {
        consecutiveFailures := consecutiveFailures + 1;
        if consecutiveFailures > cfg.failLimit && !inRecovery {
          recoveryPeriodRemaining := cfg.recoveryPeriod;
          inRecovery := true;
          recoveryPeriods := recoveryPeriods + 1;
        }
      }
      attempted := attempted + [Request(tokenId, contractAddress)];
    }

    /** The watchdog firing: the retry queue is emptied and the lock released; the breaker's
        counters are left as they are. */
    method Abort()
      modifies this
      ensures State() == old(State()).(failedRequests := [], isRunning := false)
    {
      failedRequests := [];
      isRunning := false;
    }

    /** The start of a run as written: the lock is taken before the start ping, and the ping is
        outside the try block, so when it rejects the call ends with the lock still held. */
    method StartAsWritten(startDelivered: bool) returns (proceeds: bool)
      modifies this
      ensures proceeds == (!old(isRunning) && (!cfg.healthchecksActive || startDelivered))
      ensures State() == old(State()).(isRunning := true)
    {
      if isRunning {
        return false;
      }
      isRunning := true;
      proceeds := !cfg.healthchecksActive || startDelivered;
    }

    /** The bucket test after the run's `requestCount`-th request: wait at the given rate when
        the count is a multiple of the bucket size. */
    method Pace(requestCount: nat, rate: Rate)
      modifies this
      ensures State() == Paused(cfg, old(State()), requestCount, rate)
    {
      if PausesAfter(cfg.bucketSize, requestCount) {
        pauses := pauses + [Pause(requestCount, rate)];
      }
    }

    /** One refresh run. Request k of the run (counting from 0) has outcome `outcome(k)`; the
        watchdog fires once `retryFuel` retries have been made and the queue is still not
        empty. A call while a run is in progress changes nothing. The start ping is taken inside
        the run's try block, so a rejected ping fails the run and releases the lock; the source
        takes it before the try block, which `StartAsWritten` models. */
    method FetchAllData(lastTokenId: int, outcome: nat -> FetchOutcome, retryFuel: nat, pings: Pings)
      returns (report: RunReport)
      modifies this
      // single flight
      ensures old(isRunning) ==> report == AlreadyRunning && unchanged(this)
      // every way out releases the lock (on the rejected start ping only because the ping is
      // taken inside the run's try block here; StartAsWritten keeps the source's order)
      ensures !old(isRunning) ==> report.Finished? && !isRunning
      // a rejected start ping fails the run before any request (the corrected start)
      ensures !old(isRunning) && cfg.healthchecksActive && !pings.startDelivered ==>
                && report == Finished(Failed, 0, 0, old(recoveryPeriods), false)
                && State() == old(State())
      // otherwise: the sweep, then the retries, in one request count; the watchdog fires when
      // the retries leave the queue non-empty, and empties it
      ensures !old(isRunning) && (!cfg.healthchecksActive || pings.startDelivered) ==>
                var n := SweepCount(cfg, lastTokenId);
                var total := report.requestCount;
                && report.totalFetched == n <= total <= n + retryFuel
                && (var d := RetryDrain(cfg, old(State()), lastTokenId, outcome, total);
                    && total - n == |d.trace|
                    && report.timedOut == (d.queue != [])
                    && (report.timedOut ==> total == n + retryFuel)
                    && State() == Ran(cfg, old(State()), lastTokenId, outcome, total).(failedRequests := [], isRunning := false))
                && report.recoveryPeriods == recoveryPeriods
                && report.status == (if pings.doneDelivered then Completed else Failed)
      // with no failure in the sweep and an empty queue at the start, nothing is retried
      ensures !old(isRunning) && (!cfg.healthchecksActive || pings.startDelivered) && old(failedRequests) == []
              && (forall k :: 0 <= k < report.totalFetched ==> outcome(k).Ok?) ==>
                report.requestCount == report.totalFetched && !report.timedOut
    {
      if isRunning {
        return AlreadyRunning;
      }
      isRunning := true;
      if cfg.healthchecksActive && !pings.startDelivered {
        // the rejected ping fails the run and the finally block releases the lock
        isRunning := false;
        return Finished(Failed, 0, 0, recoveryPeriods, false);
      }
      var requestCount, totalFetched, timedOut := RunLocked(lastTokenId, outcome, retryFuel);
      RanLock(cfg, old(State()), lastTokenId, outcome, requestCount, true);
      var status := if pings.doneDelivered then Completed else Failed;
      report := Finished(status, requestCount, totalFetched, recoveryPeriods, timedOut);
      if old(failedRequests) == [] && forall k :: 0 <= k < totalFetched ==> outcome(k).Ok? {
        NothingRetried(cfg, old(State()), lastTokenId, outcome, requestCount);
      }
    }

    /** The body of a run once the lock is taken and the start ping is through: the sweep, the
        retries, the watchdog and the lock released. */
    method RunLocked(lastTokenId: int, outcome: nat -> FetchOutcome, retryFuel: nat)
      returns (requestCount: nat, totalFetched: nat, timedOut: bool)
      modifies this
      ensures totalFetched == SweepCount(cfg, lastTokenId) <= requestCount
      ensures requestCount - totalFetched == |RetryDrain(cfg, old(State()), lastTokenId, outcome, requestCount).trace|
      ensures timedOut == (RetryDrain(cfg, old(State()), lastTokenId, outcome, requestCount).queue != [])
      ensures requestCount <= totalFetched + retryFuel
      ensures timedOut ==> requestCount == totalFetched + retryFuel
      ensures State() == Ran(cfg, old(State()), lastTokenId, outcome, requestCount).(failedRequests := [], isRunning := false)
    {
      requestCount, totalFetched := Sweep(lastTokenId, outcome);
      SweptWhole(cfg, old(State()), lastTokenId, outcome);
      requestCount, timedOut := RetryFailed(outcome, requestCount, retryFuel);
      isRunning := false;
    }

    /** The sweep of a run: one request per token id from the first to the last, ascending,
        each failure queued, with a pause at the normal leak rate after every request whose
        count is a multiple of the bucket size. Both counters count attempts. */
    method Sweep(lastTokenId: int, outcome: nat -> FetchOutcome) returns (requestCount: nat, totalFetched: nat)
      modifies this
      ensures requestCount == totalFetched == |SweepRequests(cfg.firstTokenId, lastTokenId, cfg.nftAddress)|
      ensures State() == Swept(cfg, old(State()), outcome, requestCount)
    {
      ghost var s0 := State();
      requestCount, totalFetched := 0, 0;
      var tokenId := cfg.firstTokenId;
      while tokenId <= lastTokenId
        invariant cfg.firstTokenId <= tokenId && (tokenId <= lastTokenId + 1 || tokenId == cfg.firstTokenId)
        invariant requestCount == totalFetched == tokenId - cfg.firstTokenId
        invariant State() == Swept(cfg, s0, outcome, requestCount)
      {
        FetchData(tokenId, cfg.nftAddress, outcome(requestCount));
        totalFetched := totalFetched + 1;
        requestCount := requestCount + 1;
        Pace(requestCount, LeakRate);
        tokenId := tokenId + 1;
      }
    }

    /** The retry phase of a run, entered after `start` requests: pop the most recent failure
        and request it again, pausing at the retry leak rate, until the queue is empty; the
        watchdog fires (Abort) when the queue is still not empty after `retryFuel` retries. */
    method RetryFailed(outcome: nat -> FetchOutcome, start: nat, retryFuel: nat)
      returns (requestCount: nat, timedOut: bool)
      modifies this
      ensures start <= requestCount <= start + retryFuel
      ensures requestCount - start == |Drain(old(failedRequests), Successes(outcome, start, requestCount)).trace|
      ensures timedOut == (Retried(cfg, old(State()), outcome, start, requestCount).failedRequests != [])
      ensures timedOut ==> requestCount == start + retryFuel
      ensures State() == if timedOut
                         then Retried(cfg, old(State()), outcome, start, requestCount).(failedRequests := [], isRunning := false)
                         else Retried(cfg, old(State()), outcome, start, requestCount)
    {
      requestCount := RetryLoop(outcome, start, retryFuel);
      timedOut := failedRequests != [];
      if timedOut {
        // the watchdog fires
        Abort();
      }
    }

    /** The retry loop proper, without the watchdog: it stops when the queue is empty or after
        `retryFuel` retries. */
    method RetryLoop(outcome: nat -> FetchOutcome, start: nat, retryFuel: nat) returns (requestCount: nat)
      modifies this
      ensures start <= requestCount <= start + retryFuel
      ensures requestCount - start == |Drain(old(failedRequests), Successes(outcome, start, requestCount)).trace|
      ensures State() == Retried(cfg, old(State()), outcome, start, requestCount)
      ensures failedRequests != [] ==> requestCount == start + retryFuel
    {
      ghost var s1 := State();
      requestCount := start;
      while failedRequests != [] && requestCount - start < retryFuel
        invariant start <= requestCount <= start + retryFuel
        invariant State() == Retried(cfg, s1, outcome, start, requestCount)
        invariant |Drain(s1.failedRequests, Successes(outcome, start, requestCount)).trace| == requestCount - start
        decreases start + retryFuel - requestCount
      {
        RetriedNext(cfg, s1, outcome, start, requestCount, State());
        requestCount := RetryNext(outcome, requestCount);
      }
    }

    /** One pass of the retry loop: pop the most recent failure, request it again (a failure
        pushes it back on top), count the request and pause if the bucket is full. */
    method RetryNext(outcome: nat -> FetchOutcome, requestCount: nat) returns (next: nat)
      requires failedRequests != []
      modifies this
      ensures next == requestCount + 1
      ensures var queue := old(failedRequests);
              State() == Paused(cfg, Fetched(cfg, old(State()).(failedRequests := queue[..|queue| - 1]),
                                             queue[|queue| - 1], outcome(requestCount).Ok?),
                                next, RetryLeakRate)
    {
      var failedRequest := failedRequests[|failedRequests| - 1];
      failedRequests := failedRequests[..|failedRequests| - 1];
      FetchData(failedRequest.tokenId, failedRequest.contractAddress, outcome(requestCount));
      next := requestCount + 1;
      Pace(next, RetryLeakRate);
    }
  }
  /** The start of a run as written, when the start ping rejects: the lock stays taken, so every
      later call of the run returns at once and no refresh ever runs again. */
  method StuckLock(cfg: Config, lastTokenId: int, outcome: nat -> FetchOutcome, retryFuel: nat, pings: Pings)
    returns (proceeds: bool, next: RunReport)
    requires cfg.healthchecksActive
    ensures !proceeds && next == AlreadyRunning
  {
    var updater := new Updater(cfg);
    proceeds := updater.StartAsWritten(false);
    next := updater.FetchAllData(lastTokenId, outcome, retryFuel, pings);
  }

  /** With the start ping inside the run's try block, a rejected ping fails the run and releases
      the lock, and the next call runs. */
  method LockReleased(cfg: Config, lastTokenId: int, outcome: nat -> FetchOutcome, retryFuel: nat, pings: Pings)
    returns (first: RunReport, next: RunReport)
    requires cfg.healthchecksActive
    ensures first == Finished(Failed, 0, 0, 0, false)
    ensures next.Finished?
  {
    var updater := new Updater(cfg);
    first := updater.FetchAllData(lastTokenId, outcome, retryFuel, Pings(false, true));
    next := updater.FetchAllData(lastTokenId, outcome, retryFuel, pings);
  }
}
