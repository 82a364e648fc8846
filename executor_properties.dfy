/**
 * What `generate_image` promises, derived from `Executor.Explains`, which
 * `Executor.GenerateImage` is proved to satisfy: when the loop stops, what
 * it returns, how many requests it issues, and how long it waits.
 */
module ExecutorProperties {
  import opened Responses
  import opened Executor

  /** Attempts `0 .. k-1` all pass their checkpoint and get a transient reply. */
  ghost predicate RetriedThrough(transport: nat -> Response, cancelSeen: nat -> bool, k: nat) {
    forall j :: 0 <= j < k ==> !cancelSeen(j) && Classify(transport(j)).Retried()
  }

  /** Retried attempts are never the last one: the run gets at least as far as attempt `k`. */
  lemma ReachesAttempt(policy: Policy, transport: nat -> Response, cancelSeen: nat -> bool, run: Run, k: nat)
    requires Explains(policy, transport, cancelSeen, run)
    requires k <= policy.maxRetries
    requires RetriedThrough(transport, cancelSeen, k)
    ensures k <= |run.sleeps|
  {
    var n := |run.sleeps|;
    assert n < k ==> !cancelSeen(n) && Classify(transport(n)).Retried();
    assert n < k ==> Settle(Classify(transport(n)), Elapsed(transport, run)).None?;
  }

  /** The run stops exactly at the first attempt that is cancelled, settled, or beyond the budget. */
  lemma StopsAt(policy: Policy, transport: nat -> Response, cancelSeen: nat -> bool, run: Run, k: nat)
    requires Explains(policy, transport, cancelSeen, run)
    requires k <= policy.maxRetries
    requires RetriedThrough(transport, cancelSeen, k)
    requires k < policy.maxRetries ==> cancelSeen(k) || !Classify(transport(k)).Retried()
    ensures |run.sleeps| == k
  {
    ReachesAttempt(policy, transport, cancelSeen, run, k);
    assert |run.sleeps| > k ==> RetriedAt(policy, transport, cancelSeen, k, run.sleeps[k], run.notices[k]);
  }

  /**
   * A cancel flag seen set at the checkpoint of attempt `k` ends the call
   * with `Cancelled`; no request is issued for attempt `k` or any later one.
   */
  lemma CancelStops(policy: Policy, transport: nat -> Response, cancelSeen: nat -> bool, run: Run, k: nat)
    requires Explains(policy, transport, cancelSeen, run)
    requires k < policy.maxRetries
    requires RetriedThrough(transport, cancelSeen, k)
    requires cancelSeen(k)
    ensures run.outcome == Cancelled && run.requests == k && |run.sleeps| == k
  {
    StopsAt(policy, transport, cancelSeen, run, k);
  }

  /** The first attempt whose reply is not transient ends the call with that reply's outcome. */
  lemma SettlesAt(policy: Policy, transport: nat -> Response, cancelSeen: nat -> bool, run: Run, k: nat)
    requires Explains(policy, transport, cancelSeen, run)
    requires k < policy.maxRetries
    requires RetriedThrough(transport, cancelSeen, k)
    requires !cancelSeen(k) && !Classify(transport(k)).Retried()
    ensures run.requests == k + 1 && |run.sleeps| == k && |run.notices| == k
    ensures Some(run.outcome) == Settle(Classify(transport(k)), Elapsed(transport, run))
  {
    StopsAt(policy, transport, cancelSeen, run, k);
  }

  /**
   * A 200 reply whose body decodes returns `Success` on that same attempt,
   * carrying the time since the start: all sleeps plus all request latencies.
   */
  lemma ImageSucceeds(policy: Policy, transport: nat -> Response, cancelSeen: nat -> bool, run: Run, k: nat)
    requires Explains(policy, transport, cancelSeen, run)
    requires k < policy.maxRetries
    requires RetriedThrough(transport, cancelSeen, k)
    requires !cancelSeen(k) && transport(k).status == 200 && transport(k).decodes
    ensures run.requests == k + 1 && |run.sleeps| == k
    ensures run.outcome == Success(Total(run.sleeps) + Latency(transport, k + 1))
  {
    SettlesAt(policy, transport, cancelSeen, run, k);
  }

  /** A 200 reply whose body does not decode ends the call with `DecodeError`; it is not retried. */
  lemma UndecodableFails(policy: Policy, transport: nat -> Response, cancelSeen: nat -> bool, run: Run, k: nat)
    requires Explains(policy, transport, cancelSeen, run)
    requires k < policy.maxRetries
    requires RetriedThrough(transport, cancelSeen, k)
    requires !cancelSeen(k) && transport(k).status == 200 && !transport(k).decodes
    ensures run.outcome == DecodeError && run.requests == k + 1 && |run.sleeps| == k
  {
    SettlesAt(policy, transport, cancelSeen, run, k);
  }

  /** A 503 reply whose body is not JSON ends the call: `response.json()` raises. */
  lemma UnparsableLoadingFails(policy: Policy, transport: nat -> Response, cancelSeen: nat -> bool, run: Run, k: nat)
    requires Explains(policy, transport, cancelSeen, run)
    requires k < policy.maxRetries
    requires RetriedThrough(transport, cancelSeen, k)
    requires !cancelSeen(k) && transport(k).status == 503 && transport(k).json.NotJson?
    ensures run.outcome == LoadingBodyNotJson && run.requests == k + 1 && |run.sleeps| == k
  {
    SettlesAt(policy, transport, cancelSeen, run, k);
  }

  /**
   * A 500 reply without the busy marker, or a reply with any status other
   * than 200, 500 and 503, ends the call with `RequestFailed` carrying that
   * status and text.
   */
  lemma OtherStatusFails(policy: Policy, transport: nat -> Response, cancelSeen: nat -> bool, run: Run, k: nat)
    requires Explains(policy, transport, cancelSeen, run)
    requires k < policy.maxRetries
    requires RetriedThrough(transport, cancelSeen, k)
    requires !cancelSeen(k)
    requires transport(k).status != 200 && transport(k).status != 503
    requires transport(k).status == 500 ==> !Contains(transport(k).text, BusyMarker)
    ensures run.outcome == RequestFailed(transport(k).status, transport(k).text)
    ensures run.requests == k + 1 && |run.sleeps| == k
  {
    SettlesAt(policy, transport, cancelSeen, run, k);
  }

  /**
   * When every attempt passes its checkpoint and gets a transient reply,
   * the call ends with `RetriesExhausted` after exactly `maxRetries`
   * requests and `maxRetries` sleeps, the last one after the final attempt.
   */
  lemma ExhaustsRetries(policy: Policy, transport: nat -> Response, cancelSeen: nat -> bool, run: Run)
    requires Explains(policy, transport, cancelSeen, run)
    requires RetriedThrough(transport, cancelSeen, policy.maxRetries)
    ensures run.outcome == RetriesExhausted
    ensures run.requests == policy.maxRetries && |run.sleeps| == policy.maxRetries
  {
    StopsAt(policy, transport, cancelSeen, run, policy.maxRetries);
  }

  /** With no attempts allowed, no request is made, nothing is shown and nothing is waited for. */
  lemma NoAttemptsNoRequest(policy: Policy, transport: nat -> Response, cancelSeen: nat -> bool, run: Run)
    requires Explains(policy, transport, cancelSeen, run)
    requires policy.maxRetries == 0
    ensures run == Run(RetriesExhausted, 0, [], [])
  {
  }

  /**
   * At most `maxRetries` requests are issued, one sleep and one warning
   * follow each retried attempt, and warning `i` carries attempt number
   * `i + 1` out of `maxRetries`.
   */
  lemma RequestsBounded(policy: Policy, transport: nat -> Response, cancelSeen: nat -> bool, run: Run)
    requires Explains(policy, transport, cancelSeen, run)
    ensures |run.sleeps| <= run.requests <= policy.maxRetries
    ensures run.requests <= |run.sleeps| + 1
    ensures |run.notices| == |run.sleeps|
    ensures forall i :: 0 <= i < |run.notices| ==>
              run.notices[i].attempt == i + 1 && run.notices[i].of == policy.maxRetries
  {
    forall i | 0 <= i < |run.notices|
      ensures run.notices[i].attempt == i + 1 && run.notices[i].of == policy.maxRetries
    {
      assert RetriedAt(policy, transport, cancelSeen, i, run.sleeps[i], run.notices[i]);
    }
  }

  /** Every retried attempt got a 503 with a JSON body, or a 500 that mentions the busy marker. */
  lemma RetriedRepliesAreTransient(policy: Policy, transport: nat -> Response, cancelSeen: nat -> bool,
                                   run: Run, i: nat)
    requires Explains(policy, transport, cancelSeen, run)
    requires i < |run.sleeps|
    ensures !cancelSeen(i)
    ensures (transport(i).status == 503 && transport(i).json.JsonObject?)
         || (transport(i).status == 500 && Contains(transport(i).text, BusyMarker))
  {
    assert RetriedAt(policy, transport, cancelSeen, i, run.sleeps[i], run.notices[i]);
  }

  /**
   * A 503 reply announcing `estimated_time` is followed by a sleep of
   * exactly `min(estimated_time, 60)`, which is at most 60, and a loading
   * warning that shows it.
   */
  lemma EstimatedWaitCapped(policy: Policy, transport: nat -> Response, cancelSeen: nat -> bool,
                            run: Run, i: nat, estimate: nat)
    requires Explains(policy, transport, cancelSeen, run)
    requires i < |run.sleeps|
    requires transport(i).status == 503 && transport(i).json == JsonObject(Some(estimate))
    ensures run.sleeps[i] == Min(estimate, EstimateCap) && run.sleeps[i] <= EstimateCap
    ensures run.notices[i] == ModelLoading(run.sleeps[i], i + 1, policy.maxRetries)
  {
    assert RetriedAt(policy, transport, cancelSeen, i, run.sleeps[i], run.notices[i]);
  }

  /**
   * A 503 reply without `estimated_time` at attempt `i` is followed by a
   * sleep of `initialWait * 2^i`, with no cap.
   */
  lemma BackoffWait(policy: Policy, transport: nat -> Response, cancelSeen: nat -> bool, run: Run, i: nat)
    requires Explains(policy, transport, cancelSeen, run)
    requires i < |run.sleeps|
    requires transport(i).status == 503 && transport(i).json == JsonObject(None)
    ensures run.sleeps[i] == policy.initialWait * Pow2(i)
    ensures run.notices[i] == ModelLoading(run.sleeps[i], i + 1, policy.maxRetries)
  {
    assert RetriedAt(policy, transport, cancelSeen, i, run.sleeps[i], run.notices[i]);
  }

  /** A retried 500 reply (it mentions the busy marker) is followed by a fixed 30-second sleep. */
  lemma BusyWaitFixed(policy: Policy, transport: nat -> Response, cancelSeen: nat -> bool, run: Run, i: nat)
    requires Explains(policy, transport, cancelSeen, run)
    requires i < |run.sleeps|
    requires transport(i).status == 500
    ensures Contains(transport(i).text, BusyMarker)
    ensures run.sleeps[i] == BusyWait
    ensures run.notices[i] == ModelBusy(i + 1, policy.maxRetries)
  {
    assert RetriedAt(policy, transport, cancelSeen, i, run.sleeps[i], run.notices[i]);
  }

  /** Each later backoff wait is twice the one before. */
  lemma BackoffDoubles(attempt: nat, initialWait: nat)
    ensures WaitTime(LoadingUnestimated, attempt + 1, initialWait)
         == 2 * WaitTime(LoadingUnestimated, attempt, initialWait)
  {
    assert Pow2(attempt + 1) == 2 * Pow2(attempt);
    assert initialWait * (2 * Pow2(attempt)) == 2 * (initialWait * Pow2(attempt));
  }

  lemma {:induction false} Pow2Monotone(a: nat, b: nat)
    requires a <= b
    ensures Pow2(a) <= Pow2(b)
  {
    if a < b {
      Pow2Monotone(a, b - 1);
    }
  }

  /**
   * The backoff path has no cap: from the seventh attempt on (attempt
   * index 6), any positive initial wait yields a wait beyond the 60-second
   * cap of the estimated path.
   */
  lemma BackoffExceedsCap(attempt: nat, initialWait: nat)
    requires initialWait > 0 && attempt >= 6
    ensures WaitTime(LoadingUnestimated, attempt, initialWait) > EstimateCap
  {
    Pow2Monotone(6, attempt);
    assert Pow2(1) == 2 && Pow2(2) == 4 && Pow2(3) == 8;
    assert Pow2(4) == 16 && Pow2(5) == 32 && Pow2(6) == 64;
    MulMonotone(initialWait, 1, Pow2(attempt));
    assert initialWait * Pow2(attempt) >= Pow2(attempt);
  }

  /**
   * With the page's default initial wait of 50, every backoff wait after
   * the first is already beyond the 60-second cap of the estimated path.
   */
  lemma DefaultBackoffAboveCap(attempt: nat)
    requires attempt >= 1
    ensures WaitTime(LoadingUnestimated, attempt, DefaultPolicy.initialWait) > EstimateCap
  {
    Pow2Monotone(1, attempt);
    assert Pow2(1) == 2;
    MulMonotone(DefaultPolicy.initialWait, 2, Pow2(attempt));
  }

  lemma {:induction false} TotalBounded(s: seq<nat>, bound: nat)
    requires forall i :: 0 <= i < |s| ==> s[i] <= bound
    ensures Total(s) <= bound * |s|
  {
    if s != [] {
      TotalBounded(s[..|s| - 1], bound);
    }
  }

  /**
   * When no retried attempt took the backoff path, every sleep is at most
   * 60 seconds, so the sleeps of one call add up to at most `60 * maxRetries`.
   */
  lemma WaitsBoundedWithoutBackoff(policy: Policy, transport: nat -> Response, cancelSeen: nat -> bool, run: Run)
    requires Explains(policy, transport, cancelSeen, run)
    requires forall i :: 0 <= i < |run.sleeps| ==> Classify(transport(i)) != LoadingUnestimated
    ensures forall i :: 0 <= i < |run.sleeps| ==> run.sleeps[i] <= EstimateCap
    ensures Total(run.sleeps) <= EstimateCap * policy.maxRetries
  {
    forall i | 0 <= i < |run.sleeps|
      ensures run.sleeps[i] <= EstimateCap
    {
      assert RetriedAt(policy, transport, cancelSeen, i, run.sleeps[i], run.notices[i]);
    }
    TotalBounded(run.sleeps, EstimateCap);
    MulMonotone(EstimateCap, |run.sleeps|, policy.maxRetries);
  }

  /** The elapsed time of a success covers at least all the sleeps of the call. */
  lemma SuccessElapsed(policy: Policy, transport: nat -> Response, cancelSeen: nat -> bool, run: Run)
    requires Explains(policy, transport, cancelSeen, run)
    requires run.outcome.Success?
    ensures run.outcome.elapsed == Elapsed(transport, run) >= Total(run.sleeps)
    ensures run.requests >= 1 && transport(run.requests - 1).status == 200
  {
  }

  /**
   * `Explains` determines the run: two calls with the same policy, the
   * same replies and the same cancel observations behave identically.
   */
  lemma ExplainsUnique(policy: Policy, transport: nat -> Response, cancelSeen: nat -> bool, run1: Run, run2: Run)
    requires Explains(policy, transport, cancelSeen, run1)
    requires Explains(policy, transport, cancelSeen, run2)
    ensures run1 == run2
  {
    var n := |run1.sleeps|;
    assert RetriedThrough(transport, cancelSeen, n) by {
      forall j | 0 <= j < n
        ensures !cancelSeen(j) && Classify(transport(j)).Retried()
      {
        assert RetriedAt(policy, transport, cancelSeen, j, run1.sleeps[j], run1.notices[j]);
      }
    }
    RequestsBounded(policy, transport, cancelSeen, run1);
    if n < policy.maxRetries {
      assert cancelSeen(n) || !Classify(transport(n)).Retried() by {
        if !run1.outcome.Cancelled? && !run1.outcome.RetriesExhausted? {
          assert Settle(Classify(transport(n)), Elapsed(transport, run1)).Some?;
        }
      }
    }
    StopsAt(policy, transport, cancelSeen, run2, n);
    forall i | 0 <= i < n
      ensures run1.sleeps[i] == run2.sleeps[i] && run1.notices[i] == run2.notices[i]
    {
      assert RetriedAt(policy, transport, cancelSeen, i, run1.sleeps[i], run1.notices[i]);
      assert RetriedAt(policy, transport, cancelSeen, i, run2.sleeps[i], run2.notices[i]);
    }
    assert run1.sleeps == run2.sleeps;
    assert run1.notices == run2.notices;
  }

  /**
   * Four 503 replies followed by a decodable 200, under the default policy
   * and with no cancel: four sleeps, each by the 503 rule, then `Success`
   * on the fifth attempt.
   */
  lemma FourLoadingThenImage(transport: nat -> Response, cancelSeen: nat -> bool, run: Run)
    requires Explains(DefaultPolicy, transport, cancelSeen, run)
    requires forall j :: 0 <= j <= 4 ==> !cancelSeen(j)
    requires forall j :: 0 <= j < 4 ==> transport(j).status == 503 && transport(j).json.JsonObject?
    requires transport(4).status == 200 && transport(4).decodes
    ensures run.outcome.Success? && run.requests == 5 && |run.sleeps| == 4
    ensures forall i :: 0 <= i < 4 ==>
              run.sleeps[i] == WaitTime(Classify(transport(i)), i, DefaultPolicy.initialWait)
  {
    ImageSucceeds(DefaultPolicy, transport, cancelSeen, run, 4);
    forall i | 0 <= i < 4
      ensures run.sleeps[i] == WaitTime(Classify(transport(i)), i, DefaultPolicy.initialWait)
    {
      assert RetriedAt(DefaultPolicy, transport, cancelSeen, i, run.sleeps[i], run.notices[i]);
    }
  }
}
