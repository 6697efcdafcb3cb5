/** The leaky-bucket pacing of the refresh run: after every request whose running count is a
    multiple of the bucket size the run waits, for the normal leak rate during the sweep and for
    the retry leak rate while draining the retry queue. Waiting is recorded, not timed. */
module Pacing {

  /** Which configured delay a pause uses. */
  datatype Rate = LeakRate | RetryLeakRate

  /** One wait, taken right after request number `afterRequest` of the run. */
  datatype Pause = Pause(afterRequest: nat, rate: Rate)

  /** The bucket test on the run's request count. A bucket size of 0 never matches: in the
      source the remainder is then NaN, which is never equal to 0. */
  predicate PausesAfter(bucketSize: int, requestCount: nat) {
    bucketSize != 0 && requestCount % bucketSize == 0
  }

  /** The pauses taken after requests `from + 1` to `upTo` of a run, in order. */
  function PauseLog(bucketSize: int, from: nat, upTo: nat, rate: Rate): (log: seq<Pause>)
    requires from <= upTo
    decreases upTo
  {
    if upTo == from then []
    else
      PauseLog(bucketSize, from, upTo - 1, rate)
      + (if PausesAfter(bucketSize, upTo) then [Pause(upTo, rate)] else [])
  }

  /** One more request: the log grows by the pause after request `upTo + 1`, if any. */
  lemma PauseLogNext(bucketSize: int, from: nat, upTo: nat, rate: Rate)
    requires from <= upTo
    ensures PauseLog(bucketSize, from, upTo + 1, rate)
            == PauseLog(bucketSize, from, upTo, rate)
               + (if PausesAfter(bucketSize, upTo + 1) then [Pause(upTo + 1, rate)] else [])
  {
  }

  /** Every pause in the log uses the given rate and follows a request in range that passes
      the bucket test. */
  lemma {:induction false} PauseLogSound(bucketSize: int, from: nat, upTo: nat, rate: Rate)
    requires from <= upTo
    ensures forall p :: p in PauseLog(bucketSize, from, upTo, rate) ==>
              p.rate == rate && from < p.afterRequest <= upTo && PausesAfter(bucketSize, p.afterRequest)
    decreases upTo
  {
    if from < upTo {
      PauseLogSound(bucketSize, from, upTo - 1, rate);
    }
  }

  /** Every request count in range that passes the bucket test is followed by a pause. */
  lemma {:induction false} PauseLogComplete(bucketSize: int, from: nat, upTo: nat, rate: Rate, k: nat)
    requires from < k <= upTo && PausesAfter(bucketSize, k)
    ensures Pause(k, rate) in PauseLog(bucketSize, from, upTo, rate)
    decreases upTo
  {
    if k < upTo {
      PauseLogComplete(bucketSize, from, upTo - 1, rate, k);
    }
  }

  /** b * d >= b for a positive multiplier. */
  lemma {:induction false} MulAtLeast(b: nat, d: nat)
    requires d >= 1
    ensures b * d >= b
  {
    if d > 1 {
      MulAtLeast(b, d - 1);
      assert b * d == b * (d - 1) + b;
    }
  }

  /** Quotient and remainder are unique. */
  lemma DivModUnique(n: int, b: int, q: int, r: int)
    requires b > 0 && 0 <= r < b && n == b * q + r
    ensures n / b == q && n % b == r
  {
    var q', r' := n / b, n % b;
    assert n == b * q' + r' && 0 <= r' < b;
    if q < q' {
      MulAtLeast(b, q' - q);
    } else if q' < q {
      MulAtLeast(b, q - q');
    }
  }

  /** Going from request n - 1 to request n adds one to n / b exactly when b divides n. */
  lemma DivStep(n: nat, b: int)
    requires b > 0 && n > 0
    ensures n / b == (n - 1) / b + (if n % b == 0 then 1 else 0)
  {
    var q, r := (n - 1) / b, (n - 1) % b;
    if r == b - 1 {
      DivModUnique(n, b, q + 1, 0);
    } else {
      DivModUnique(n, b, q, r + 1);
    }
  }

  /** Requests `from + 1` to `upTo` are followed by `upTo / b - from / b` pauses: over a whole
      run, N requests give floor(N / b) pauses; a bucket size of 0 gives none. */
  lemma {:induction false} PauseCount(bucketSize: int, from: nat, upTo: nat, rate: Rate)
    requires from <= upTo
    ensures bucketSize > 0 ==> |PauseLog(bucketSize, from, upTo, rate)| == upTo / bucketSize - from / bucketSize
    ensures bucketSize == 0 ==> PauseLog(bucketSize, from, upTo, rate) == []
    decreases upTo
  {
    if from < upTo {
      PauseCount(bucketSize, from, upTo - 1, rate);
      if bucketSize > 0 {
        DivStep(upTo, bucketSize);
      }
    }
  }

  /** The request count is not reset between the sweep (n requests) and the retry phase: the
      two phases together pause floor(total / b) times, however the requests are split. */
  lemma RunPauseCount(bucketSize: int, n: nat, total: nat)
    requires bucketSize > 0 && n <= total
    ensures |PauseLog(bucketSize, 0, n, LeakRate) + PauseLog(bucketSize, n, total, RetryLeakRate)|
            == total / bucketSize
  {
    PauseCount(bucketSize, 0, n, LeakRate);
    PauseCount(bucketSize, n, total, RetryLeakRate);
  }
}
