/** The consecutive-failure breaker of the refresh run: four module-level counters that every
    attempt updates. It never stops or skips a request; it only records that a recovery period
    is under way and how many have started. */
module FailureBreaker {

  /** consecutiveFailures, inRecovery, recoveryPeriodRemaining and recoveryPeriods, as the
      module-level variables of the updater hold them. The remaining count is an `int` because
      the configured recovery period is read from the environment and may be zero or negative. */
  datatype BreakerState = BreakerState(
    consecutiveFailures: nat,
    inRecovery: bool,
    recoveryPeriodRemaining: int,
    recoveryPeriods: nat)

  /** The values the counters start with when the process loads. */
  const INITIAL := BreakerState(0, false, 0, 0)

  /** The designed invariant: recovery is on exactly while part of a period remains. */
  predicate Consistent(b: BreakerState) {
    b.inRecovery == (b.recoveryPeriodRemaining > 0)
  }

  /** Recovery is on with nothing left to count down: no success can end it. */
  predicate Stuck(b: BreakerState) {
    b.inRecovery && b.recoveryPeriodRemaining <= 0
  }

  /** Whether one more failure starts a recovery period. */
  predicate StartsRecovery(failLimit: int, b: BreakerState) {
    b.consecutiveFailures + 1 > failLimit && !b.inRecovery
  }

  /** The effect of one attempt, successful or not, on the counters. */
  function Record(failLimit: int, recoveryPeriod: int, b: BreakerState, success: bool): BreakerState
  {
    if success then
      if b.recoveryPeriodRemaining > 0 then
        var remaining := b.recoveryPeriodRemaining - 1;
        b.(consecutiveFailures := 0,
           recoveryPeriodRemaining := remaining,
           inRecovery := if remaining == 0 then false else b.inRecovery)
      else
        b.(consecutiveFailures := 0)
    else
      var failures := b.consecutiveFailures + 1;
      if failures > failLimit && !b.inRecovery then
        BreakerState(failures, true, recoveryPeriod, b.recoveryPeriods + 1)
      else
        b.(consecutiveFailures := failures)
  }

  /** One attempt: a success resets the failure count and counts a running period down, ending
      recovery at 0; a failure raises the count, and starts a period (counted once) only when
      the count passes the limit outside recovery. Recovery never changes otherwise. */
  lemma RecordSteps(failLimit: int, recoveryPeriod: int, b: BreakerState, success: bool)
    ensures var r := Record(failLimit, recoveryPeriod, b, success);
            && r.consecutiveFailures == (if success then 0 else b.consecutiveFailures + 1)
            && r.recoveryPeriods
               == (if !success && StartsRecovery(failLimit, b) then b.recoveryPeriods + 1 else b.recoveryPeriods)
            && (!success && StartsRecovery(failLimit, b) ==>
                  r.inRecovery && r.recoveryPeriodRemaining == recoveryPeriod)
            && (!success && !StartsRecovery(failLimit, b) ==>
                  r.inRecovery == b.inRecovery && r.recoveryPeriodRemaining == b.recoveryPeriodRemaining)
            && (success && b.recoveryPeriodRemaining > 0 ==>
                  && r.recoveryPeriodRemaining == b.recoveryPeriodRemaining - 1
                  && r.inRecovery == (b.inRecovery && r.recoveryPeriodRemaining != 0))
            && (success && b.recoveryPeriodRemaining <= 0 ==>
                  r.recoveryPeriodRemaining == b.recoveryPeriodRemaining && r.inRecovery == b.inRecovery)
  {
  }

  /** With a positive recovery period one attempt keeps the invariant; an inconsistent state
      with nothing left to count down stays that way. */
  lemma RecordConsistent(failLimit: int, recoveryPeriod: int, b: BreakerState, success: bool)
    ensures recoveryPeriod > 0 && Consistent(b) ==> Consistent(Record(failLimit, recoveryPeriod, b, success))
    ensures Stuck(b) ==>
              && Stuck(Record(failLimit, recoveryPeriod, b, success))
              && Record(failLimit, recoveryPeriod, b, success).recoveryPeriodRemaining == b.recoveryPeriodRemaining
  {
  }

  /** The counters after a series of attempts whose outcomes are `successes`, in order. */
  function Replay(failLimit: int, recoveryPeriod: int, b: BreakerState, successes: seq<bool>): (r: BreakerState)
    ensures b.recoveryPeriods <= r.recoveryPeriods <= b.recoveryPeriods + |successes|
  {
    if successes == [] then b
    else
      Record(failLimit, recoveryPeriod,
             Replay(failLimit, recoveryPeriod, b, successes[..|successes| - 1]),
             successes[|successes| - 1])
  }

  /** One more attempt at the end of a series. */
  lemma ReplayNext(failLimit: int, recoveryPeriod: int, b: BreakerState, successes: seq<bool>, success: bool)
    ensures Replay(failLimit, recoveryPeriod, b, successes + [success])
            == Record(failLimit, recoveryPeriod, Replay(failLimit, recoveryPeriod, b, successes), success)
  {
    assert (successes + [success])[..|successes|] == successes;
  }

  /** Replaying two series one after the other is replaying their concatenation. */
  lemma {:induction false} ReplayAppend(failLimit: int, recoveryPeriod: int, b: BreakerState, s: seq<bool>, t: seq<bool>)
    ensures Replay(failLimit, recoveryPeriod, Replay(failLimit, recoveryPeriod, b, s), t)
            == Replay(failLimit, recoveryPeriod, b, s + t)
    decreases |t|
  {
    if t != [] {
      var t' := t[..|t| - 1];
      ReplayAppend(failLimit, recoveryPeriod, b, s, t');
      assert (s + t)[..|s + t| - 1] == s + t' && (s + t)[|s + t| - 1] == t[|t| - 1];
    } else {
      assert s + t == s;
    }
  }

  /** With a positive recovery period, no sequence of attempts breaks the invariant. */
  lemma {:induction false} ReplayKeepsConsistent(failLimit: int, recoveryPeriod: int, b: BreakerState, successes: seq<bool>)
    requires recoveryPeriod > 0 && Consistent(b)
    ensures Consistent(Replay(failLimit, recoveryPeriod, b, successes))
  {
    if successes != [] {
      var prefix := successes[..|successes| - 1];
      ReplayKeepsConsistent(failLimit, recoveryPeriod, b, prefix);
      RecordConsistent(failLimit, recoveryPeriod, Replay(failLimit, recoveryPeriod, b, prefix), successes[|successes| - 1]);
    }
  }

  /** With a period of zero or less, the remaining count never becomes positive, so once
      recovery is on it stays on and no further recovery period is ever counted. */
  lemma {:induction false} NonPositivePeriodSticks(failLimit: int, recoveryPeriod: int, b: BreakerState, successes: seq<bool>)
    requires recoveryPeriod <= 0 && b.recoveryPeriodRemaining <= 0
    ensures Replay(failLimit, recoveryPeriod, b, successes).recoveryPeriodRemaining <= 0
    ensures b.inRecovery ==>
              Replay(failLimit, recoveryPeriod, b, successes).inRecovery
              && Replay(failLimit, recoveryPeriod, b, successes).recoveryPeriods == b.recoveryPeriods
  {
    if successes != [] {
      var prefix := successes[..|successes| - 1];
      NonPositivePeriodSticks(failLimit, recoveryPeriod, b, prefix);
      RecordConsistent(failLimit, recoveryPeriod, Replay(failLimit, recoveryPeriod, b, prefix), successes[|successes| - 1]);
    }
  }

  /** A streak of failures: the counter grows by the streak's length, and recovery starts
      exactly once, when the count first exceeds the limit, unless it was already on. */
  lemma {:induction false} FailureStreak(failLimit: int, recoveryPeriod: int, b: BreakerState, successes: seq<bool>)
    requires forall i :: 0 <= i < |successes| ==> !successes[i]
    ensures var r := Replay(failLimit, recoveryPeriod, b, successes);
            var exceeded := successes != [] && b.consecutiveFailures + |successes| > failLimit;
            && r.consecutiveFailures == b.consecutiveFailures + |successes|
            && r.inRecovery == (b.inRecovery || exceeded)
            && r.recoveryPeriods == (if !b.inRecovery && exceeded then b.recoveryPeriods + 1 else b.recoveryPeriods)
            && r.recoveryPeriodRemaining
               == (if !b.inRecovery && exceeded then recoveryPeriod else b.recoveryPeriodRemaining)
  {
    if successes != [] {
      var prefix := successes[..|successes| - 1];
      assert forall i :: 0 <= i < |prefix| ==> !prefix[i];
      FailureStreak(failLimit, recoveryPeriod, b, prefix);
      var r := Replay(failLimit, recoveryPeriod, b, prefix);
      RecordSteps(failLimit, recoveryPeriod, r, false);
      assert Replay(failLimit, recoveryPeriod, b, successes) == Record(failLimit, recoveryPeriod, r, false);
    }
  }

  /** A streak of successes: the failure count is 0 after the first one, no period starts, and
      a positive remaining count goes down by one per success, recovery ending when it hits 0. */
  lemma {:induction false} SuccessStreak(failLimit: int, recoveryPeriod: int, b: BreakerState, successes: seq<bool>)
    requires forall i :: 0 <= i < |successes| ==> successes[i]
    ensures var r := Replay(failLimit, recoveryPeriod, b, successes);
            && r.consecutiveFailures == (if successes == [] then b.consecutiveFailures else 0)
            && r.recoveryPeriods == b.recoveryPeriods
            && (b.recoveryPeriodRemaining > 0 ==>
                  && r.recoveryPeriodRemaining
                     == (if |successes| < b.recoveryPeriodRemaining then b.recoveryPeriodRemaining - |successes| else 0)
                  && r.inRecovery == (b.inRecovery && |successes| < b.recoveryPeriodRemaining))
            && (b.recoveryPeriodRemaining <= 0 ==>
                  r.recoveryPeriodRemaining == b.recoveryPeriodRemaining && r.inRecovery == b.inRecovery)
  {
    if successes != [] {
      var prefix := successes[..|successes| - 1];
      assert forall i :: 0 <= i < |prefix| ==> prefix[i];
      SuccessStreak(failLimit, recoveryPeriod, b, prefix);
      var r := Replay(failLimit, recoveryPeriod, b, prefix);
      RecordSteps(failLimit, recoveryPeriod, r, true);
      assert Replay(failLimit, recoveryPeriod, b, successes) == Record(failLimit, recoveryPeriod, r, true);
    }
  }
}
