/** The refresh run as a function of the outcome of each request: the run state the module-level
    variables hold, the effect of one request and of one pause on it, and the state after the
    first n requests of the sweep and after the retry phase. */
module RunSpec {
  import opened FailureBreaker
  import opened Pacing
  import opened RetryQueue

  /** The configuration the run reads from the environment. */
  datatype Config = Config(
    nftAddress: string,
    firstTokenId: int,
    bucketSize: int,
    failLimit: int,
    recoveryPeriod: int,
    healthchecksActive: bool)

  /** What one metadata request does: an ok response, a non-ok response, or an exception
      (from the request itself or from reading its body). */
  datatype FetchOutcome = Ok | NotOk | Threw

  /** The module-level run state: the retry queue, the lock, the breaker's counters, and (as a
      record, not in the source) every request attempted and every wait taken, in order. */
  datatype RunState = RunState(
    failedRequests: seq<Request>,
    isRunning: bool,
    breaker: BreakerState,
    attempted: seq<Request>,
    pauses: seq<Pause>)

  /** The success flags of requests `from` to `upTo - 1` of a run, in order. */
  function Successes(outcome: nat -> FetchOutcome, from: nat, upTo: nat): (s: seq<bool>)
    requires from <= upTo
    ensures |s| == upTo - from
    decreases upTo
  {
    if upTo == from then [] else Successes(outcome, from, upTo - 1) + [outcome(upTo - 1).Ok?]
  }

  /** Entry i is the outcome of request from + i. */
  lemma {:induction false} SuccessesAt(outcome: nat -> FetchOutcome, from: nat, upTo: nat)
    requires from <= upTo
    ensures forall i :: 0 <= i < upTo - from ==> Successes(outcome, from, upTo)[i] == outcome(from + i).Ok?
    decreases upTo
  {
    if from < upTo {
      SuccessesAt(outcome, from, upTo - 1);
      var init := Successes(outcome, from, upTo - 1);
      assert Successes(outcome, from, upTo) == init + [outcome(upTo - 1).Ok?];
    }
  }

  /** The flags of two adjacent ranges of requests, one after the other. */
  lemma {:induction false} SuccessesSplit(outcome: nat -> FetchOutcome, from: nat, mid: nat, upTo: nat)
    requires from <= mid <= upTo
    ensures Successes(outcome, from, mid) + Successes(outcome, mid, upTo) == Successes(outcome, from, upTo)
    decreases upTo
  {
    if mid < upTo {
      SuccessesSplit(outcome, from, mid, upTo - 1);
      var last := [outcome(upTo - 1).Ok?];
      assert Successes(outcome, from, mid) + (Successes(outcome, mid, upTo - 1) + last)
             == (Successes(outcome, from, mid) + Successes(outcome, mid, upTo - 1)) + last;
    } else {
      assert Successes(outcome, mid, upTo) == [];
      assert Successes(outcome, from, mid) + [] == Successes(outcome, from, mid);
    }
  }

  /** One request: a failure pushes it on the end of the retry queue, and the breaker takes
      one step either way. */
  function Fetched(cfg: Config, s: RunState, request: Request, success: bool): RunState {
    s.(failedRequests := s.failedRequests + (if success then [] else [request]),
       breaker := Record(cfg.failLimit, cfg.recoveryPeriod, s.breaker, success),
       attempted := s.attempted + [request])
  }

  /** The bucket test after the run's `requestCount`-th request, at the given rate. */
  function Paused(cfg: Config, s: RunState, requestCount: nat, rate: Rate): RunState {
    s.(pauses := s.pauses + (if PausesAfter(cfg.bucketSize, requestCount) then [Pause(requestCount, rate)] else []))
  }

  /** The state after the first n requests of the sweep, started from `s`: request k is for
      token id firstTokenId + k, and is followed by the bucket test at the normal leak rate. */
  function Swept(cfg: Config, s: RunState, outcome: nat -> FetchOutcome, n: nat): RunState
    decreases n
  {
    if n == 0 then s
    else
      var k := n - 1;
      Paused(cfg, Fetched(cfg, Swept(cfg, s, outcome, k), Request(cfg.firstTokenId + k, cfg.nftAddress), outcome(k).Ok?),
             n, LeakRate)
  }

  /** The requests and outcomes of the first k + 1 sweep requests. */
  lemma SweptInputsNext(cfg: Config, outcome: nat -> FetchOutcome, k: nat)
    ensures SweepRequests(cfg.firstTokenId, cfg.firstTokenId + (k + 1) - 1, cfg.nftAddress)
            == SweepRequests(cfg.firstTokenId, cfg.firstTokenId + k - 1, cfg.nftAddress)
               + [Request(cfg.firstTokenId + k, cfg.nftAddress)]
    ensures Successes(outcome, 0, k + 1) == Successes(outcome, 0, k) + [outcome(k).Ok?]
  {
    assert cfg.firstTokenId + (k + 1) - 1 == cfg.firstTokenId + k;
  }

  /** The failures among the first n requests of the sweep, in order. */
  function SweepFailures(cfg: Config, outcome: nat -> FetchOutcome, n: nat): seq<Request> {
    Failures(SweepRequests(cfg.firstTokenId, cfg.firstTokenId + n - 1, cfg.nftAddress), Successes(outcome, 0, n))
  }

  /** Sweep request k is queued exactly when it fails. */
  lemma SweepFailuresNext(cfg: Config, outcome: nat -> FetchOutcome, k: nat)
    ensures SweepFailures(cfg, outcome, k + 1)
            == SweepFailures(cfg, outcome, k)
               + (if outcome(k).Ok? then [] else [Request(cfg.firstTokenId + k, cfg.nftAddress)])
  {
    SweptInputsNext(cfg, outcome, k);
    FailuresNext(SweepRequests(cfg.firstTokenId, cfg.firstTokenId + k - 1, cfg.nftAddress), Successes(outcome, 0, k),
                 Request(cfg.firstTokenId + k, cfg.nftAddress), outcome(k).Ok?);
  }

  /** The sweep queues its failures in the order they happen. */
  lemma {:induction false} SweptFailures(cfg: Config, s: RunState, outcome: nat -> FetchOutcome, n: nat)
    ensures Swept(cfg, s, outcome, n).failedRequests == s.failedRequests + SweepFailures(cfg, outcome, n)
    decreases n
  {
    if n > 0 {
      var k: nat := n - 1;
      SweptFailures(cfg, s, outcome, k);
      SweepFailuresNext(cfg, outcome, k);
      var failed := if outcome(k).Ok? then [] else [Request(cfg.firstTokenId + k, cfg.nftAddress)];
      assert s.failedRequests + (SweepFailures(cfg, outcome, k) + failed)
             == s.failedRequests + SweepFailures(cfg, outcome, k) + failed;
    }
  }

  /** The sweep attempts its requests in ascending token-id order and does not touch the lock. */
  lemma {:induction false} SweptAttempts(cfg: Config, s: RunState, outcome: nat -> FetchOutcome, n: nat)
    ensures Swept(cfg, s, outcome, n).attempted
            == s.attempted + SweepRequests(cfg.firstTokenId, cfg.firstTokenId + n - 1, cfg.nftAddress)
    ensures Swept(cfg, s, outcome, n).isRunning == s.isRunning
    decreases n
  {
    if n > 0 {
      var k: nat := n - 1;
      var requests := SweepRequests(cfg.firstTokenId, cfg.firstTokenId + k - 1, cfg.nftAddress);
      var request := Request(cfg.firstTokenId + k, cfg.nftAddress);
      SweptAttempts(cfg, s, outcome, k);
      SweptInputsNext(cfg, outcome, k);
      assert s.attempted + (requests + [request]) == s.attempted + requests + [request];
    }
  }

  /** The breaker sees the sweep's outcomes in order. */
  lemma {:induction false} SweptBreaker(cfg: Config, s: RunState, outcome: nat -> FetchOutcome, n: nat)
    ensures Swept(cfg, s, outcome, n).breaker == Replay(cfg.failLimit, cfg.recoveryPeriod, s.breaker, Successes(outcome, 0, n))
    decreases n
  {
    if n > 0 {
      var k: nat := n - 1;
      SweptBreaker(cfg, s, outcome, k);
      ReplayNext(cfg.failLimit, cfg.recoveryPeriod, s.breaker, Successes(outcome, 0, k), outcome(k).Ok?);
      assert Successes(outcome, 0, k + 1) == Successes(outcome, 0, k) + [outcome(k).Ok?];
    }
  }

  /** The sweep pauses after its k-th request exactly when k passes the bucket test. */
  lemma {:induction false} SweptPauses(cfg: Config, s: RunState, outcome: nat -> FetchOutcome, n: nat)
    ensures Swept(cfg, s, outcome, n).pauses == s.pauses + PauseLog(cfg.bucketSize, 0, n, LeakRate)
    decreases n
  {
    if n > 0 {
      SweptPauses(cfg, s, outcome, n - 1);
      SweptPausesNext(cfg, s, n - 1);
    }
  }

  /** The sweep does not depend on the lock. */
  lemma {:induction false} SweptLock(cfg: Config, s: RunState, outcome: nat -> FetchOutcome, n: nat, locked: bool)
    ensures Swept(cfg, s.(isRunning := locked), outcome, n) == Swept(cfg, s, outcome, n).(isRunning := locked)
    decreases n
  {
    if n > 0 {
      SweptLock(cfg, s, outcome, n - 1, locked);
    }
  }

  /** The pauses after one more sweep request. */
  lemma SweptPausesNext(cfg: Config, s: RunState, n: nat)
    ensures s.pauses + PauseLog(cfg.bucketSize, 0, n + 1, LeakRate)
            == s.pauses + PauseLog(cfg.bucketSize, 0, n, LeakRate)
               + (if PausesAfter(cfg.bucketSize, n + 1) then [Pause(n + 1, LeakRate)] else [])
  {
    var paused := if PausesAfter(cfg.bucketSize, n + 1) then [Pause(n + 1, LeakRate)] else [];
    assert s.pauses + (PauseLog(cfg.bucketSize, 0, n, LeakRate) + paused)
           == s.pauses + PauseLog(cfg.bucketSize, 0, n, LeakRate) + paused;
  }

  /** The state after the retry phase has made the attempts `start` to `upTo - 1` of the run,
      started from `s`: the drain of `s`'s queue on those attempts' outcomes. */
  function Retried(cfg: Config, s: RunState, outcome: nat -> FetchOutcome, start: nat, upTo: nat): RunState
    requires start <= upTo
  {
    var oks := Successes(outcome, start, upTo);
    var d := Drain(s.failedRequests, oks);
    s.(failedRequests := d.queue,
       breaker := Replay(cfg.failLimit, cfg.recoveryPeriod, s.breaker, oks),
       attempted := s.attempted + d.trace,
       pauses := s.pauses + PauseLog(cfg.bucketSize, start, upTo, RetryLeakRate))
  }

  /** While the queue is not empty, one more retry (pop the top, request it) takes the state one
      step further, and the drain one attempt longer. */
  lemma RetriedNext(cfg: Config, s: RunState, outcome: nat -> FetchOutcome, start: nat, upTo: nat, r: RunState)
    requires start <= upTo && r == Retried(cfg, s, outcome, start, upTo) && r.failedRequests != []
    ensures Retried(cfg, s, outcome, start, upTo + 1)
            == Paused(cfg, Fetched(cfg, r.(failedRequests := r.failedRequests[..|r.failedRequests| - 1]),
                                   r.failedRequests[|r.failedRequests| - 1], outcome(upTo).Ok?),
                      upTo + 1, RetryLeakRate)
    ensures |Drain(s.failedRequests, Successes(outcome, start, upTo + 1)).trace|
            == |Drain(s.failedRequests, Successes(outcome, start, upTo)).trace| + 1
  {
    var oks, oks' := Successes(outcome, start, upTo), Successes(outcome, start, upTo + 1);
    var ok := outcome(upTo).Ok?;
    assert oks'[..|oks'| - 1] == oks;
    var queue := r.failedRequests;
    var top := queue[|queue| - 1];
    var d := Drain(s.failedRequests, oks);
    assert Drain(s.failedRequests, oks') == Drained(d.trace + [top], if ok then queue[..|queue| - 1] else queue);
    assert queue[..|queue| - 1] + [top] == queue;
    assert s.attempted + (d.trace + [top]) == s.attempted + d.trace + [top];
    var paused := if PausesAfter(cfg.bucketSize, upTo + 1) then [Pause(upTo + 1, RetryLeakRate)] else [];
    assert s.pauses + PauseLog(cfg.bucketSize, start, upTo + 1, RetryLeakRate)
           == s.pauses + PauseLog(cfg.bucketSize, start, upTo, RetryLeakRate) + paused;
  }

  /** The number of requests of the sweep up to `lastTokenId`. */
  function SweepCount(cfg: Config, lastTokenId: int): nat {
    |SweepRequests(cfg.firstTokenId, lastTokenId, cfg.nftAddress)|
  }

  /** The queue the retry phase of a run from `s0` starts from: the old queue and the sweep's
      failures. */
  function RetryQueueOf(cfg: Config, s0: RunState, lastTokenId: int, outcome: nat -> FetchOutcome): seq<Request> {
    var n := SweepCount(cfg, lastTokenId);
    s0.failedRequests + Failures(SweepRequests(cfg.firstTokenId, lastTokenId, cfg.nftAddress), Successes(outcome, 0, n))
  }

  /** The retry phase of a run from `s0` that has made `total` requests in all. */
  function RetryDrain(cfg: Config, s0: RunState, lastTokenId: int, outcome: nat -> FetchOutcome, total: nat): Drained
    requires SweepCount(cfg, lastTokenId) <= total
  {
    Drain(RetryQueueOf(cfg, s0, lastTokenId, outcome), Successes(outcome, SweepCount(cfg, lastTokenId), total))
  }

  /** The state after a run from `s0` that has made `total` requests in all: the whole sweep up
      to `lastTokenId`, then the retries, before the watchdog and the lock. */
  function Ran(cfg: Config, s0: RunState, lastTokenId: int, outcome: nat -> FetchOutcome, total: nat): RunState
    requires SweepCount(cfg, lastTokenId) <= total
  {
    var n := SweepCount(cfg, lastTokenId);
    Retried(cfg, Swept(cfg, s0, outcome, n), outcome, n, total)
  }

  /** After the whole sweep the queue is the one the retry phase starts from, every token id
      has been attempted once, in order, and the lock is as it was. */
  lemma SweptWhole(cfg: Config, s0: RunState, lastTokenId: int, outcome: nat -> FetchOutcome)
    ensures var swept := Swept(cfg, s0, outcome, SweepCount(cfg, lastTokenId));
            && swept.failedRequests == RetryQueueOf(cfg, s0, lastTokenId, outcome)
            && swept.attempted == s0.attempted + SweepRequests(cfg.firstTokenId, lastTokenId, cfg.nftAddress)
            && swept.isRunning == s0.isRunning
  {
    var n := SweepCount(cfg, lastTokenId);
    SweepRequestsCount(cfg.firstTokenId, lastTokenId, cfg.nftAddress);
    assert SweepRequests(cfg.firstTokenId, cfg.firstTokenId + n - 1, cfg.nftAddress)
           == SweepRequests(cfg.firstTokenId, lastTokenId, cfg.nftAddress);
    SweptFailures(cfg, s0, outcome, n);
    SweptAttempts(cfg, s0, outcome, n);
  }

  /** The retry phase does not look at the lock. */
  lemma RetriedLock(cfg: Config, s: RunState, outcome: nat -> FetchOutcome, start: nat, upTo: nat, locked: bool)
    requires start <= upTo
    ensures Retried(cfg, s.(isRunning := locked), outcome, start, upTo) == Retried(cfg, s, outcome, start, upTo).(isRunning := locked)
  {
  }

  /** A run does not depend on the lock. */
  lemma RanLock(cfg: Config, s0: RunState, lastTokenId: int, outcome: nat -> FetchOutcome, total: nat, locked: bool)
    requires SweepCount(cfg, lastTokenId) <= total
    ensures Ran(cfg, s0.(isRunning := locked), lastTokenId, outcome, total)
            == Ran(cfg, s0, lastTokenId, outcome, total).(isRunning := locked)
    ensures RetryDrain(cfg, s0.(isRunning := locked), lastTokenId, outcome, total) == RetryDrain(cfg, s0, lastTokenId, outcome, total)
  {
    var n := SweepCount(cfg, lastTokenId);
    SweptLock(cfg, s0, outcome, n, locked);
    RetriedLock(cfg, Swept(cfg, s0, outcome, n), outcome, n, total, locked);
  }

  /** A run retries the old queue plus the sweep's failures, attempts the sweep's requests and
      then the retries, and leaves the lock as it was. */
  lemma RunRequests(cfg: Config, s0: RunState, lastTokenId: int, outcome: nat -> FetchOutcome, total: nat)
    requires SweepCount(cfg, lastTokenId) <= total
    ensures var r := Ran(cfg, s0, lastTokenId, outcome, total);
            var d := RetryDrain(cfg, s0, lastTokenId, outcome, total);
            && r.failedRequests == d.queue
            && r.attempted == s0.attempted + SweepRequests(cfg.firstTokenId, lastTokenId, cfg.nftAddress) + d.trace
            && r.isRunning == s0.isRunning
  {
    var n := SweepCount(cfg, lastTokenId);
    var swept := Swept(cfg, s0, outcome, n);
    SweptWhole(cfg, s0, lastTokenId, outcome);
    var d := Drain(swept.failedRequests, Successes(outcome, n, total));
    assert d == RetryDrain(cfg, s0, lastTokenId, outcome, total);
    assert Ran(cfg, s0, lastTokenId, outcome, total)
           == swept.(failedRequests := d.queue,
                     breaker := Replay(cfg.failLimit, cfg.recoveryPeriod, swept.breaker, Successes(outcome, n, total)),
                     attempted := swept.attempted + d.trace,
                     pauses := swept.pauses + PauseLog(cfg.bucketSize, n, total, RetryLeakRate));
  }

  /** Over a whole run the breaker sees every outcome in order, and keeps its invariant when the
      recovery period is positive. */
  lemma RunBreaker(cfg: Config, s0: RunState, lastTokenId: int, outcome: nat -> FetchOutcome, total: nat)
    requires SweepCount(cfg, lastTokenId) <= total
    ensures var r := Ran(cfg, s0, lastTokenId, outcome, total);
            && r.breaker == Replay(cfg.failLimit, cfg.recoveryPeriod, s0.breaker, Successes(outcome, 0, total))
            && (cfg.recoveryPeriod > 0 && Consistent(s0.breaker) ==> Consistent(r.breaker))
  {
    var n := SweepCount(cfg, lastTokenId);
    SweptBreaker(cfg, s0, outcome, n);
    ReplayAppend(cfg.failLimit, cfg.recoveryPeriod, s0.breaker, Successes(outcome, 0, n), Successes(outcome, n, total));
    SuccessesSplit(outcome, 0, n, total);
    if cfg.recoveryPeriod > 0 && Consistent(s0.breaker) {
      ReplayKeepsConsistent(cfg.failLimit, cfg.recoveryPeriod, s0.breaker, Successes(outcome, 0, total));
    }
  }

  /** Over a whole run the pauses of both phases come from one request count: floor(total / b)
      of them for a positive bucket size b. */
  lemma RunPauses(cfg: Config, s0: RunState, lastTokenId: int, outcome: nat -> FetchOutcome, total: nat)
    requires SweepCount(cfg, lastTokenId) <= total
    ensures var r := Ran(cfg, s0, lastTokenId, outcome, total);
            var n := SweepCount(cfg, lastTokenId);
            && r.pauses == s0.pauses + PauseLog(cfg.bucketSize, 0, n, LeakRate)
                                     + PauseLog(cfg.bucketSize, n, total, RetryLeakRate)
            && (cfg.bucketSize > 0 ==> |r.pauses| == |s0.pauses| + total / cfg.bucketSize)
  {
    SweptPauses(cfg, s0, outcome, SweepCount(cfg, lastTokenId));
    if cfg.bucketSize > 0 {
      RunPauseCount(cfg.bucketSize, SweepCount(cfg, lastTokenId), total);
    }
  }

  /** With nothing queued and no failure in the sweep, the retry phase has nothing to do. */
  lemma NothingRetried(cfg: Config, s0: RunState, lastTokenId: int, outcome: nat -> FetchOutcome, total: nat)
    requires SweepCount(cfg, lastTokenId) <= total
    requires s0.failedRequests == [] && forall k :: 0 <= k < SweepCount(cfg, lastTokenId) ==> outcome(k).Ok?
    ensures RetryDrain(cfg, s0, lastTokenId, outcome, total) == Drained([], [])
  {
    var n := SweepCount(cfg, lastTokenId);
    var sweep := SweepRequests(cfg.firstTokenId, lastTokenId, cfg.nftAddress);
    var sweepOks := Successes(outcome, 0, n);
    SuccessesAt(outcome, 0, n);
    CountAllTrue(sweepOks);
    FailuresCount(sweep, sweepOks);
    assert RetryQueueOf(cfg, s0, lastTokenId, outcome) == [];
    DrainEmpty(Successes(outcome, n, total));
  }
}
