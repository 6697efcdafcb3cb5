/** The requests of a refresh run: the ascending sweep over the token ids, the requests it
    leaves in the retry queue, and the last-in-first-out drain of that queue. */
module RetryQueue {

  /** One refresh request: a token id and its contract address. A failed request is pushed onto
      the retry queue as it is (the source's `FailedRequest` record). */
  datatype Request = Request(tokenId: int, contractAddress: string)

  /** What the retry phase did: the requests it attempted, in order, and the queue left over. */
  datatype Drained = Drained(trace: seq<Request>, queue: seq<Request>)

  /** The sweep's requests: every token id from `first` to `last` inclusive, ascending. */
  function SweepRequests(first: int, last: int, contractAddress: string): (r: seq<Request>)
    ensures |r| == if last < first then 0 else last - first + 1
    decreases last - first + 1
  {
    if last < first then []
    else SweepRequests(first, last - 1, contractAddress) + [Request(last, contractAddress)]
  }

  /** Request i of the sweep is for token id first + i. */
  lemma {:induction false} SweepRequestsAt(first: int, last: int, contractAddress: string)
    ensures forall i :: 0 <= i < |SweepRequests(first, last, contractAddress)| ==>
              SweepRequests(first, last, contractAddress)[i] == Request(first + i, contractAddress)
    decreases last - first + 1
  {
    if first <= last {
      SweepRequestsAt(first, last - 1, contractAddress);
      var init := SweepRequests(first, last - 1, contractAddress);
      var r := SweepRequests(first, last, contractAddress);
      assert r == init + [Request(last, contractAddress)];
      forall i | 0 <= i < |r|
        ensures r[i] == Request(first + i, contractAddress)
      {
        if i < |init| {
          assert r[i] == init[i];
        }
      }
    }
  }

  /** The sweep up to `last` is the sweep of its own length. */
  lemma SweepRequestsCount(first: int, last: int, contractAddress: string)
    ensures SweepRequests(first, last, contractAddress)
            == SweepRequests(first, first + |SweepRequests(first, last, contractAddress)| - 1, contractAddress)
  {
    if first <= last {
      assert first + |SweepRequests(first, last, contractAddress)| - 1 == last;
    }
  }

  /** The number of `true` entries. */
  function CountTrue(s: seq<bool>): (c: nat)
    ensures c <= |s|
  {
    if s == [] then 0
    else CountTrue(s[..|s| - 1]) + (if s[|s| - 1] then 1 else 0)
  }

  /** The requests whose attempt failed, in the order they were attempted (pushed). */
  function Failures(reqs: seq<Request>, successes: seq<bool>): (r: seq<Request>)
    requires |reqs| == |successes|
  {
    if reqs == [] then []
    else
      var n := |reqs| - 1;
      Failures(reqs[..n], successes[..n]) + (if successes[n] then [] else [reqs[n]])
  }

  /** One more attempt: its request is queued exactly when it fails. */
  lemma FailuresNext(reqs: seq<Request>, successes: seq<bool>, request: Request, success: bool)
    requires |reqs| == |successes|
    ensures Failures(reqs + [request], successes + [success])
            == Failures(reqs, successes) + (if success then [] else [request])
  {
    assert (reqs + [request])[..|reqs|] == reqs;
    assert (successes + [success])[..|successes|] == successes;
  }

  /** Strictly ascending token ids. */
  predicate Ascending(s: seq<Request>) {
    forall i, j :: 0 <= i < j < |s| ==> s[i].tokenId < s[j].tokenId
  }

  /** Failures keep the sweep's ascending order, so the retry queue after the sweep holds the
      failed token ids in ascending order. */
  lemma {:induction false} FailuresAscending(reqs: seq<Request>, successes: seq<bool>)
    requires |reqs| == |successes| && Ascending(reqs)
    ensures Ascending(Failures(reqs, successes))
  {
    if reqs != [] {
      var n := |reqs| - 1;
      var init := reqs[..n];
      assert Ascending(init) by {
        forall i, j | 0 <= i < j < n
          ensures init[i].tokenId < init[j].tokenId
        {
          assert init[i] == reqs[i] && init[j] == reqs[j];
        }
      }
      FailuresAscending(init, successes[..n]);
      FailuresFromRequests(init, successes[..n]);
      var r0 := Failures(init, successes[..n]);
      if successes[n] {
        assert Failures(reqs, successes) == r0;
      } else {
        forall x | x in r0
          ensures x.tokenId < reqs[n].tokenId
        {
          var k :| 0 <= k < n && init[k] == x;
          assert init[k] == reqs[k];
        }
        var r := r0 + [reqs[n]];
        assert Failures(reqs, successes) == r;
        forall i, j | 0 <= i < j < |r|
          ensures r[i].tokenId < r[j].tokenId
        {
          assert r[i] == r0[i] && r0[i] in r0;
          if j == |r0| {
            assert r[j] == reqs[n];
          } else {
            assert r[j] == r0[j];
          }
        }
      }
    }
  }

  /** The retry phase given the outcome of each retry attempt in turn: each attempt pops the
      last queued request and, when it fails, pushes the same request back. It ends when the
      queue is empty or the outcomes run out (the watchdog fires). */
  function Drain(q: seq<Request>, successes: seq<bool>): (d: Drained)
    ensures |d.trace| <= |successes|
    ensures |d.trace| < |successes| ==> d.queue == []
  {
    if successes == [] then Drained([], q)
    else
      var d := Drain(q, successes[..|successes| - 1]);
      if d.queue == [] then d
      else
        var top := d.queue[|d.queue| - 1];
        Drained(d.trace + [top],
                if successes[|successes| - 1] then d.queue[..|d.queue| - 1] else d.queue)
  }

  /** Attempt i of `trace` retried the request at the top of the queue: the original queue
      minus the requests that succeeded before attempt i. */
  predicate TakesTop(q: seq<Request>, successes: seq<bool>, trace: seq<Request>)
    requires |trace| <= |successes|
  {
    forall i :: 0 <= i < |trace| ==>
      CountTrue(successes[..i]) < |q| && trace[i] == q[|q| - 1 - CountTrue(successes[..i])]
  }

  /** What the retry phase leaves is the original queue minus the requests that succeeded:
      the queue is a stack, and a failed retry pushes back what it popped. */
  lemma {:induction false} DrainQueue(q: seq<Request>, successes: seq<bool>)
    ensures var d := Drain(q, successes);
            && CountTrue(successes[..|d.trace|]) <= |q|
            && d.queue == q[..|q| - CountTrue(successes[..|d.trace|])]
  {
    if successes == [] {
      assert successes[..0] == [];
    } else {
      var m := |successes| - 1;
      var p := successes[..m];
      DrainQueue(q, p);
      var dp := Drain(q, p);
      assert successes[..|dp.trace|] == p[..|dp.trace|];
      if dp.queue != [] {
        assert |dp.trace| == m && p[..m] == p;
        assert successes[..m + 1] == successes;
        DrainQueueStep(q, successes, CountTrue(p));
      }
    }
  }

  /** One retry on a non-empty queue: a success removes the top, a failure leaves the queue. */
  lemma DrainQueueStep(q: seq<Request>, successes: seq<bool>, c: nat)
    requires successes != []
    requires var p := successes[..|successes| - 1];
             && c == CountTrue(p) <= |q| && Drain(q, p).queue == q[..|q| - c] != []
             && |Drain(q, p).trace| == |p|
    ensures var d := Drain(q, successes);
            && |d.trace| == |successes|
            && CountTrue(successes) <= |q|
            && d.queue == q[..|q| - CountTrue(successes)]
  {
    var m := |successes| - 1;
    assert successes[..m + 1] == successes;
    if successes[m] {
      assert q[..|q| - c][..|q| - c - 1] == q[..|q| - (c + 1)];
    }
  }

  /** Last in, first out: every retry takes the top of the queue, the original queue minus the
      requests that succeeded before it. A failed retry therefore is followed by another attempt
      of the same request. */
  lemma {:induction false} DrainTakesTop(q: seq<Request>, successes: seq<bool>)
    ensures TakesTop(q, successes, Drain(q, successes).trace)
  {
    if successes != [] {
      var m := |successes| - 1;
      var p := successes[..m];
      DrainTakesTop(q, p);
      DrainQueue(q, p);
      var dp := Drain(q, p);
      TakesTopExtend(q, p, successes, dp.trace);
      if dp.queue != [] {
        assert |dp.trace| == m && p[..m] == p;
        TakesTopPush(q, successes, dp.trace, q[|q| - 1 - CountTrue(p)]);
      }
    }
  }

  /** TakesTop only looks at the outcomes before each attempt. */
  lemma TakesTopExtend(q: seq<Request>, p: seq<bool>, successes: seq<bool>, trace: seq<Request>)
    requires |trace| <= |p| <= |successes| && p == successes[..|p|]
    requires TakesTop(q, p, trace)
    ensures TakesTop(q, successes, trace)
  {
    forall i | 0 <= i < |trace|
      ensures successes[..i] == p[..i]
    {
    }
  }

  /** Appending the attempt that takes the current top keeps TakesTop. */
  lemma TakesTopPush(q: seq<Request>, successes: seq<bool>, trace: seq<Request>, top: Request)
    requires |trace| < |successes| && TakesTop(q, successes, trace)
    requires CountTrue(successes[..|trace|]) < |q|
    requires top == q[|q| - 1 - CountTrue(successes[..|trace|])]
    ensures TakesTop(q, successes, trace + [top])
  {
  }

  /** An empty queue is never retried, however much time is left. */
  lemma {:induction false} DrainEmpty(successes: seq<bool>)
    ensures Drain([], successes) == Drained([], [])
  {
    if successes != [] {
      DrainEmpty(successes[..|successes| - 1]);
    }
  }

  /** The requests in reverse order. */
  function Reverse(s: seq<Request>): (r: seq<Request>)
    ensures |r| == |s|
  {
    if s == [] then [] else [s[|s| - 1]] + Reverse(s[..|s| - 1])
  }

  /** Entry i of the reversal is entry i from the end. */
  lemma {:induction false} ReverseAt(s: seq<Request>, i: nat)
    requires i < |s|
    ensures Reverse(s)[i] == s[|s| - 1 - i]
  {
    if i > 0 {
      var init := s[..|s| - 1];
      ReverseAt(init, i - 1);
      assert Reverse(s)[i] == Reverse(init)[i - 1];
    }
  }

  /** Only requests that were attempted are queued. */
  lemma {:induction false} FailuresFromRequests(reqs: seq<Request>, successes: seq<bool>)
    requires |reqs| == |successes|
    ensures forall x :: x in Failures(reqs, successes) ==> x in reqs
  {
    if reqs != [] {
      var n := |reqs| - 1;
      FailuresFromRequests(reqs[..n], successes[..n]);
      assert forall x :: x in reqs[..n] ==> x in reqs;
    }
  }

  /** Each failed attempt queues exactly one request: the queue grows by the number of
      failures, and by nothing when every attempt succeeds. */
  lemma {:induction false} FailuresCount(reqs: seq<Request>, successes: seq<bool>)
    requires |reqs| == |successes|
    ensures |Failures(reqs, successes)| == |reqs| - CountTrue(successes)
    ensures CountTrue(successes) == |successes| ==> Failures(reqs, successes) == []
  {
    if reqs != [] {
      var n := |reqs| - 1;
      FailuresCount(reqs[..n], successes[..n]);
    }
  }

  /** The queue the sweep leaves holds the failed token ids in ascending order, so the retry
      phase, taking the last one first, retries the highest failed id first. */
  lemma SweepFailuresAscending(first: int, last: int, contractAddress: string, successes: seq<bool>)
    requires |successes| == |SweepRequests(first, last, contractAddress)|
    ensures Ascending(Failures(SweepRequests(first, last, contractAddress), successes))
  {
    var sweep := SweepRequests(first, last, contractAddress);
    SweepRequestsAt(first, last, contractAddress);
    assert Ascending(sweep) by {
      forall i, j | 0 <= i < j < |sweep|
        ensures sweep[i].tokenId < sweep[j].tokenId
      {
      }
    }
    FailuresAscending(sweep, successes);
  }

  /** Every entry true: the count is the length. */
  lemma {:induction false} CountAllTrue(s: seq<bool>)
    requires forall i :: 0 <= i < |s| ==> s[i]
    ensures CountTrue(s) == |s|
  {
    if s != [] {
      var init := s[..|s| - 1];
      assert forall i :: 0 <= i < |init| ==> init[i];
      CountAllTrue(init);
    }
  }

  /** Every entry true: each prefix counts its own length. */
  lemma CountPrefixAllTrue(s: seq<bool>, k: nat)
    requires k <= |s| && forall i :: 0 <= i < |s| ==> s[i]
    ensures CountTrue(s[..k]) == k
  {
    var prefix := s[..k];
    assert forall i :: 0 <= i < k ==> prefix[i];
    CountAllTrue(prefix);
  }

  /** With every attempt a success, taking the top each time retries the queue in reverse. */
  lemma TopsReversed(q: seq<Request>, successes: seq<bool>, trace: seq<Request>)
    requires |trace| == |q| <= |successes| && forall i :: 0 <= i < |successes| ==> successes[i]
    requires TakesTop(q, successes, trace)
    ensures trace == Reverse(q)
  {
    forall i | 0 <= i < |q|
      ensures trace[i] == Reverse(q)[i]
    {
      CountPrefixAllTrue(successes, i);
      TopReversed(q, successes, trace, i);
    }
  }

  /** An attempt with no success before it retries the matching entry of the reversed queue. */
  lemma TopReversed(q: seq<Request>, successes: seq<bool>, trace: seq<Request>, i: nat)
    requires |trace| == |q| <= |successes| && TakesTop(q, successes, trace)
    requires i < |q| && CountTrue(successes[..i]) == i
    ensures trace[i] == Reverse(q)[i]
  {
    ReverseAt(q, i);
    assert trace[i] == q[|q| - 1 - CountTrue(successes[..i])];
  }

  /** When every retry succeeds and there is time for all of them, the queue empties and the
      requests are retried most recent failure first. */
  lemma DrainAllSucceed(q: seq<Request>, successes: seq<bool>)
    requires |q| <= |successes|
    requires forall i :: 0 <= i < |successes| ==> successes[i]
    ensures Drain(q, successes) == Drained(Reverse(q), [])
  {
    var d := Drain(q, successes);
    DrainQueue(q, successes);
    CountPrefixAllTrue(successes, |d.trace|);
    assert |d.trace| == |q| && d.queue == [] by {
      if |d.trace| < |successes| {
        assert d.queue == [];
      }
    }
    DrainTakesTop(q, successes);
    TopsReversed(q, successes, d.trace);
  }
}
