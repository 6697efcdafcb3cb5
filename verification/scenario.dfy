/** A worked run: token ids 1 to 5, a bucket size of 2, a failure limit of 2 and a recovery
    period of 1; the requests for ids 2 and 4 fail the first time and every other request,
    retries included, succeeds. */
module Scenario {
  import opened FailureBreaker
  import opened Pacing
  import opened RetryQueue
  import opened RunSpec
  import opened Refresh

  /** Requests 1 and 3 of the run (ids 2 and 4 of the sweep) fail; all others succeed. */
  function ScenarioOutcome(k: nat): FetchOutcome {
    if k == 1 || k == 3 then NotOk else Ok
  }

  /** The outcomes of the sweep and of the first two retries. */
  lemma ScenarioSuccesses()
    ensures Successes(ScenarioOutcome, 0, 5) == [true, false, true, false, true]
    ensures Successes(ScenarioOutcome, 5, 7) == [true, true]
  {
    assert Successes(ScenarioOutcome, 0, 2) == [true, false];
    assert Successes(ScenarioOutcome, 0, 4) == [true, false, true, false];
  }

  /** The sweep's requests. */
  lemma ScenarioRequests(a: string)
    ensures SweepRequests(1, 5, a)
            == [Request(1, a), Request(2, a), Request(3, a), Request(4, a), Request(5, a)]
  {
    assert SweepRequests(1, 2, a) == [Request(1, a), Request(2, a)];
    assert SweepRequests(1, 4, a) == [Request(1, a), Request(2, a), Request(3, a), Request(4, a)];
  }

  /** The first four sweep requests queue ids 2 and 4, in that order. */
  lemma ScenarioEarlyFailures(a: string)
    ensures Failures([Request(1, a), Request(2, a), Request(3, a), Request(4, a)],
                     [true, false, true, false])
            == [Request(2, a), Request(4, a)]
  {
    var r1, r2, r3, r4 := Request(1, a), Request(2, a), Request(3, a), Request(4, a);
    assert Failures([r1, r2], [true, false]) == [r2] by {
      FailuresNext([r1], [true], r2, false);
      assert [r1] + [r2] == [r1, r2] && [true] + [false] == [true, false];
    }
    FailuresNext([r1, r2], [true, false], r3, true);
    assert [r1, r2] + [r3] == [r1, r2, r3] && [true, false] + [true] == [true, false, true];
    FailuresNext([r1, r2, r3], [true, false, true], r4, false);
    assert [r1, r2, r3] + [r4] == [r1, r2, r3, r4] && [true, false, true] + [false] == [true, false, true, false];
  }

  /** The sweep queues ids 2 and 4, in that order. */
  lemma ScenarioFailures(a: string)
    ensures Failures([Request(1, a), Request(2, a), Request(3, a), Request(4, a), Request(5, a)],
                     [true, false, true, false, true])
            == [Request(2, a), Request(4, a)]
  {
    var r1, r2, r3, r4, r5 := Request(1, a), Request(2, a), Request(3, a), Request(4, a), Request(5, a);
    ScenarioEarlyFailures(a);
    FailuresNext([r1, r2, r3, r4], [true, false, true, false], r5, true);
    assert [r1, r2, r3, r4] + [r5] == [r1, r2, r3, r4, r5];
    assert [true, false, true, false] + [true] == [true, false, true, false, true];
  }

  /** The run after seven requests: 4 is retried before 2, both succeed and the queue is empty;
      pauses follow requests 2 and 4 (leak rate) and 6 (retry leak rate); two failures never
      exceed the limit of 2, so no recovery period starts. */
  lemma FiveTokens()
    ensures var cfg := Config("c", 1, 2, 2, 1, true);
            var s0 := RunState([], false, INITIAL, [], []);
            var r := Ran(cfg, s0, 5, ScenarioOutcome, 7);
            var q := [Request(2, "c"), Request(4, "c")];
            && SweepCount(cfg, 5) == 5
            && RetryQueueOf(cfg, s0, 5, ScenarioOutcome) == q
            && RetryDrain(cfg, s0, 5, ScenarioOutcome, 7) == Drained([Request(4, "c"), Request(2, "c")], [])
            && r.failedRequests == []
            && r.attempted == SweepRequests(1, 5, "c") + [Request(4, "c"), Request(2, "c")]
            && r.pauses == [Pause(2, LeakRate), Pause(4, LeakRate), Pause(6, RetryLeakRate)]
            && r.breaker == BreakerState(0, false, 0, 0)
  {
    var a := "c";
    var cfg := Config(a, 1, 2, 2, 1, true);
    var s0 := RunState([], false, INITIAL, [], []);
    ScenarioSuccesses();
    ScenarioRequests(a);
    ScenarioFailures(a);
    var q := [Request(2, a), Request(4, a)];
    assert [true, true][..1] == [true];
    assert Drain(q, [true]) == Drained([Request(4, a)], [Request(2, a)]);
    RunRequests(cfg, s0, 5, ScenarioOutcome, 7);
    RunPauses(cfg, s0, 5, ScenarioOutcome, 7);
    ScenarioPauses();
    RunBreaker(cfg, s0, 5, ScenarioOutcome, 7);
    SuccessesSplit(ScenarioOutcome, 0, 5, 7);
    ScenarioBreaker();
  }

  /** The pauses of the run's seven requests. */
  lemma ScenarioPauses()
    ensures PauseLog(2, 0, 5, LeakRate) + PauseLog(2, 5, 7, RetryLeakRate)
            == [Pause(2, LeakRate), Pause(4, LeakRate), Pause(6, RetryLeakRate)]
  {
    assert PauseLog(2, 0, 2, LeakRate) == [Pause(2, LeakRate)];
    assert PauseLog(2, 0, 4, LeakRate) == [Pause(2, LeakRate), Pause(4, LeakRate)];
  }

  /** The breaker over the run's seven outcomes. */
  lemma ScenarioBreaker()
    ensures Replay(2, 1, INITIAL, [true, false, true, false, true, true, true]) == BreakerState(0, false, 0, 0)
  {
    var one := BreakerState(1, false, 0, 0);
    ReplayNext(2, 1, INITIAL, [], true);
    assert [] + [true] == [true];
    assert Replay(2, 1, INITIAL, [true]) == INITIAL;
    ReplayNext(2, 1, INITIAL, [true], false);
    assert [true] + [false] == [true, false];
    assert Replay(2, 1, INITIAL, [true, false]) == one;
    ReplayNext(2, 1, INITIAL, [true, false], true);
    assert [true, false] + [true] == [true, false, true];
    assert Replay(2, 1, INITIAL, [true, false, true]) == INITIAL;
    ReplayNext(2, 1, INITIAL, [true, false, true], false);
    assert [true, false, true] + [false] == [true, false, true, false];
    assert Replay(2, 1, INITIAL, [true, false, true, false]) == one;
    ReplayNext(2, 1, INITIAL, [true, false, true, false], true);
    assert [true, false, true, false] + [true] == [true, false, true, false, true];
    assert Replay(2, 1, INITIAL, [true, false, true, false, true]) == INITIAL;
    ReplayNext(2, 1, INITIAL, [true, false, true, false, true], true);
    assert [true, false, true, false, true] + [true] == [true, false, true, false, true, true];
    assert Replay(2, 1, INITIAL, [true, false, true, false, true, true]) == INITIAL;
    ReplayNext(2, 1, INITIAL, [true, false, true, false, true, true], true);
    assert [true, false, true, false, true, true] + [true] == [true, false, true, false, true, true, true];
  }

  /** Fewer than two retries leave the queue non-empty; two or more empty it, 4 first. */
  lemma ScenarioRetries(total: nat)
    requires 5 <= total
    ensures var d := Drain([Request(2, "c"), Request(4, "c")], Successes(ScenarioOutcome, 5, total));
            && (total < 7 ==> d.queue != [] && |d.trace| == total - 5)
            && (7 <= total ==> d == Drained([Request(4, "c"), Request(2, "c")], []))
  {
    if total < 7 {
      ScenarioShortRetries(total);
    } else {
      ScenarioAllRetries(total);
    }
  }

  /** Zero or one retry leaves the queue non-empty. */
  lemma ScenarioShortRetries(total: nat)
    requires 5 <= total < 7
    ensures var d := Drain([Request(2, "c"), Request(4, "c")], Successes(ScenarioOutcome, 5, total));
            d.queue != [] && |d.trace| == total - 5
  {
    if total == 6 {
      assert Successes(ScenarioOutcome, 5, total) == [true];
    }
  }

  /** Two retries or more: both succeed, most recent failure first. */
  lemma ScenarioAllRetries(total: nat)
    requires 7 <= total
    ensures Drain([Request(2, "c"), Request(4, "c")], Successes(ScenarioOutcome, 5, total))
            == Drained([Request(4, "c"), Request(2, "c")], [])
  {
    var q := [Request(2, "c"), Request(4, "c")];
    var oks := Successes(ScenarioOutcome, 5, total);
    assert forall i :: 0 <= i < |oks| ==> oks[i] by {
      SuccessesAt(ScenarioOutcome, 5, total);
    }
    DrainAllSucceed(q, oks);
    ScenarioReverse();
  }

  /** The queue reversed. */
  lemma ScenarioReverse()
    ensures Reverse([Request(2, "c"), Request(4, "c")]) == [Request(4, "c"), Request(2, "c")]
  {
    var q := [Request(2, "c"), Request(4, "c")];
    assert q[..1] == [Request(2, "c")];
    assert Reverse(q[..1]) == [Request(2, "c")];
  }

  /** The whole run on a fresh updater with both pings delivered and time for ten retries:
      seven requests in all, five tokens fetched, no recovery period, no timeout. */
  method FiveTokenRun() returns (report: RunReport)
    ensures report == Finished(Completed, 7, 5, 0, false)
  {
    var updater := new Updater(Config("c", 1, 2, 2, 1, true));
    report := updater.FetchAllData(5, ScenarioOutcome, 10, Pings(true, true));
    FiveTokens();
    ScenarioRetries(report.requestCount);
  }
}
