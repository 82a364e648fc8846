/**
 * The bounded retry executor `generate_image`: up to `maxRetries` attempts,
 * each preceded by a cancellation checkpoint, each issuing one request and
 * then either ending the call or waiting and trying again.
 *
 * The network is the function `transport` (the reply to attempt k), the
 * shared cancellation flag is `cancelSeen` (its value at the checkpoint of
 * attempt k), warnings and sleeps are recorded in the returned `Run`, and
 * time is a natural-number clock advanced by request latencies and sleeps.
 */
module Executor {
  import opened Responses

  /** `max_retries` and `initial_wait` of `generate_image`. */
  datatype Policy = Policy(maxRetries: nat, initialWait: nat)

  /** The defaults the page uses. */
  const DefaultPolicy: Policy := Policy(5, 50)

  /** How one call ends: an image and the time it took, or the exception it raises. */
  datatype Outcome =
    | Success(elapsed: nat)
    | Cancelled
    | DecodeError
    | LoadingBodyNotJson
    | RequestFailed(status: int, text: string)
    | RetriesExhausted

  /** A progress warning: "Attempt `attempt`/`of`". */
  datatype Notice =
    | ModelLoading(wait: nat, attempt: nat, of: nat)
    | ModelBusy(attempt: nat, of: nat)

  /**
   * Everything one call produces: the outcome, the number of requests
   * issued, the warnings shown and the sleeps performed, in order.
   */
  datatype Run = Run(outcome: Outcome, requests: nat, notices: seq<Notice>, sleeps: seq<nat>)

  /** The outcome of an attempt whose reply is not retried; `None` for a transient reply. */
  function Settle(k: Kind, elapsed: nat): (o: Option<Outcome>)
    ensures o.None? <==> k.Retried()
    ensures o.Some? ==> !o.value.Cancelled? && !o.value.RetriesExhausted?
    ensures o == Some(Success(elapsed)) <==> k == Image
    ensures k == Undecodable ==> o == Some(DecodeError)
    ensures k == LoadingUnparsable ==> o == Some(LoadingBodyNotJson)
    ensures k.Rejected? ==> o == Some(RequestFailed(k.status, k.text))
  {
    match k
    case Image => Some(Success(elapsed))
    case Undecodable => Some(DecodeError)
    case LoadingUnparsable => Some(LoadingBodyNotJson)
    case Rejected(status, text) => Some(RequestFailed(status, text))
    case _ => None
  }

  /** The warning shown before the wait of attempt `attempt` (counted from zero). */
  function NoticeFor(k: Kind, wait: nat, attempt: nat, maxRetries: nat): (n: Notice)
    requires k.Retried()
    ensures n.attempt == attempt + 1 && n.of == maxRetries
    ensures n.ModelBusy? <==> k.Busy?
  {
    if k.Busy? then ModelBusy(attempt + 1, maxRetries) else ModelLoading(wait, attempt + 1, maxRetries)
  }

  /** Sum of a sequence of durations. */
  function Total(s: seq<nat>): nat {
    if s == [] then 0 else Total(s[..|s| - 1]) + s[|s| - 1]
  }

  /** Time spent in the first `n` requests. */
  function Latency(transport: nat -> Response, n: nat): nat {
    if n == 0 then 0 else Latency(transport, n - 1) + transport(n - 1).latency
  }

  /** Clock reading, relative to the start of the call, after the recorded requests and sleeps. */
  function Elapsed(transport: nat -> Response, run: Run): nat {
    Total(run.sleeps) + Latency(transport, run.requests)
  }

  /**
   * Attempt `i` passed its checkpoint, got a transient reply, and was
   * followed by warning `notice` and a sleep of `wait`.
   */
  ghost predicate RetriedAt(policy: Policy, transport: nat -> Response, cancelSeen: nat -> bool,
                            i: nat, wait: nat, notice: Notice)
  {
    var k := Classify(transport(i));
    && !cancelSeen(i)
    && k.Retried()
    && wait == WaitTime(k, i, policy.initialWait)
    && notice == NoticeFor(k, wait, i, policy.maxRetries)
  }

  /** Every recorded attempt was retried with the recorded warning and sleep. */
  ghost predicate RetriedPrefix(policy: Policy, transport: nat -> Response, cancelSeen: nat -> bool,
                                sleeps: seq<nat>, notices: seq<Notice>)
  {
    && |notices| == |sleeps|
    && forall i :: 0 <= i < |sleeps| ==> RetriedAt(policy, transport, cancelSeen, i, sleeps[i], notices[i])
  }

  /**
   * `run` is what `generate_image` does: every attempt but the last was
   * retried, one sleep and one warning each; the last attempt either saw
   * the cancel flag (no request), or was answered by a reply that ends the
   * call, or there was no attempt left.
   */
  ghost predicate Explains(policy: Policy, transport: nat -> Response, cancelSeen: nat -> bool, run: Run)
  {
    var n := |run.sleeps|;
    && |run.notices| == n
    && (forall i :: 0 <= i < n ==> RetriedAt(policy, transport, cancelSeen, i, run.sleeps[i], run.notices[i]))
    && match run.outcome
       case Cancelled =>
         n < policy.maxRetries && cancelSeen(n) && run.requests == n
       case RetriesExhausted =>
         n == policy.maxRetries && run.requests == n
       case _ =>
         && n < policy.maxRetries
         && !cancelSeen(n)
         && run.requests == n + 1
         && Settle(Classify(transport(n)), Elapsed(transport, run)) == Some(run.outcome)
  }

  lemma TotalAppend(s: seq<nat>, x: nat)
    ensures Total(s + [x]) == Total(s) + x
  {
    assert (s + [x])[..|s|] == s;
  }

  /** Attempt `attempt` is retried: the retried prefix grows by its sleep and warning. */
  lemma RetryExtends(policy: Policy, transport: nat -> Response, cancelSeen: nat -> bool,
                     sleeps: seq<nat>, notices: seq<Notice>, wait: nat, notice: Notice)
    requires RetriedPrefix(policy, transport, cancelSeen, sleeps, notices)
    requires RetriedAt(policy, transport, cancelSeen, |sleeps|, wait, notice)
    ensures RetriedPrefix(policy, transport, cancelSeen, sleeps + [wait], notices + [notice])
  {
  }

  /** A run that stops at attempt `|sleeps|`, after the retried prefix, satisfies `Explains`. */
  lemma StopExplains(policy: Policy, transport: nat -> Response, cancelSeen: nat -> bool, run: Run)
    requires RetriedPrefix(policy, transport, cancelSeen, run.sleeps, run.notices)
    requires run.outcome.Cancelled? ==>
               |run.sleeps| < policy.maxRetries && cancelSeen(|run.sleeps|) && run.requests == |run.sleeps|
    requires run.outcome.RetriesExhausted? ==>
               |run.sleeps| == policy.maxRetries && run.requests == |run.sleeps|
    requires !run.outcome.Cancelled? && !run.outcome.RetriesExhausted? ==>
               && |run.sleeps| < policy.maxRetries
               && !cancelSeen(|run.sleeps|)
               && run.requests == |run.sleeps| + 1
               && Settle(Classify(transport(|run.sleeps|)), Elapsed(transport, run)) == Some(run.outcome)
    ensures Explains(policy, transport, cancelSeen, run)
  {
  }

  /**
   * The body of one attempt after its request: the reply either ends the
   * call with `outcome`, or gives the warning and the wait before the next
   * attempt. The branches follow the loop body of `generate_image`.
   */
  method HandleReply(policy: Policy, response: Response, attempt: nat, clock: nat)
    returns (outcome: Option<Outcome>, wait: nat, notice: Notice)
    ensures outcome == Settle(Classify(response), clock)
    ensures outcome.None? ==> && wait == WaitTime(Classify(response), attempt, policy.initialWait)
                              && notice == NoticeFor(Classify(response), wait, attempt, policy.maxRetries)
  {
    wait, notice := 0, ModelBusy(attempt + 1, policy.maxRetries);
    if response.status == 200 {
      if response.decodes {
        outcome := Some(Success(clock));
      } else {
        outcome := Some(DecodeError);
      }
      return;
    }
    if response.status == 503 {
      if response.json.NotJson? {
        outcome := Some(LoadingBodyNotJson);
        return;
      }
      match response.json.estimatedTime {
        case Some(estimate) => wait := Min(estimate, EstimateCap);
        case None => wait := policy.initialWait * Pow2(attempt);
      }
      notice := ModelLoading(wait, attempt + 1, policy.maxRetries);
    } else if response.status == 500 && Contains(response.text, BusyMarker) {
      wait := BusyWait;
      notice := ModelBusy(attempt + 1, policy.maxRetries);
    } else {
      outcome := Some(RequestFailed(response.status, response.text));
      return;
    }
    outcome := None;
  }

  /**
   * `generate_image`: checkpoint, request, then end the call or warn, sleep
   * and try again, for at most `maxRetries` attempts. Where the source
   * returns from inside the loop, the loop breaks and the run is assembled
   * once after it.
   */
  method GenerateImage(policy: Policy, transport: nat -> Response, cancelSeen: nat -> bool)
    returns (run: Run)
    ensures Explains(policy, transport, cancelSeen, run)
  {
    var notices: seq<Notice> := [];
    var sleeps: seq<nat> := [];
    var clock: nat := 0;
    var attempt: nat := 0;
    var outcome: Outcome := RetriesExhausted;
    var requests: nat := 0;
    while attempt < policy.maxRetries
      invariant attempt <= policy.maxRetries
      invariant |sleeps| == attempt == requests
      invariant RetriedPrefix(policy, transport, cancelSeen, sleeps, notices)
      invariant clock == Total(sleeps) + Latency(transport, attempt)
    {
      if cancelSeen(attempt) {
        outcome := Cancelled;
        break;
      }
      var response := transport(attempt);
      clock := clock + response.latency;
      var settled, wait, notice := HandleReply(policy, response, attempt, clock);
      if settled.Some? {
        outcome, requests := settled.value, attempt + 1;
        break;
      }
      RetryExtends(policy, transport, cancelSeen, sleeps, notices, wait, notice);
      TotalAppend(sleeps, wait);
      notices := notices + [notice];
      sleeps := sleeps + [wait];
      clock := clock + wait;
      attempt := attempt + 1;
      requests := attempt;
    }
    run := Run(outcome, requests, notices, sleeps);
    StopExplains(policy, transport, cancelSeen, run);
  }
}
