# Bounded retry executor of the diffusion image generator

This project models the one piece of real logic in the Streamlit image
generator: `generate_image`, which posts a prompt to a hosted inference
endpoint and retries while the model is loading or busy. It also models the
page-wide cancellation flag that a "Cancel" button sets and a "Generate"
button clears.

The executor makes up to `max_retries` attempts. Each attempt first checks
the cancellation flag. It then issues one request and classifies the reply:

- a 200 reply whose body decodes as an image is a success, carrying the
  time elapsed since the start;
- a 200 reply that does not decode fails with a decode error and is not
  retried;
- a 503 reply ("model loading") waits `min(estimated_time, 60)` when the
  JSON body announces an estimate, and `initial_wait * 2^attempt` otherwise;
- a 500 reply whose text contains "Model too busy" waits a fixed 30 seconds;
- any other reply fails with its status and text.

Every wait is preceded by a warning "Attempt n/max". When no attempt is
left, the call fails with "max retries reached".

How the model stands in for the outside world:

- The network is a function `transport: nat -> Response`, the reply to
  attempt k. A `Response` carries the status, the body as text, whether the
  body decodes as an image, the body as JSON, and the request's latency.
- The shared flag is `cancelSeen: nat -> bool`, its value at the checkpoint
  of attempt k.
- Warnings and sleeps are recorded in the returned `Run`, in order.
- Time is a natural-number clock that advances by request latencies and
  sleeps. `Success(elapsed)` is that clock when the image arrives.

Modules:

- `Responses` (responses.dfy): the reply datatype, the classifier
  `Classify`, the substring test behind the busy check, and the wait rule
  `WaitTime`.
- `Executor` (executor.dfy): the loop `GenerateImage`, proved against
  `Explains`, with the branches of its body in `HandleReply`. `Explains` is a declarative description of a run: every
  attempt but the last was retried with the prescribed sleep and warning,
  and the last one was cancelled, settled by its reply, or beyond the budget.
- `ExecutorProperties` (executor_properties.dfy): each promise of the
  executor, derived from `Explains`. `ExplainsUnique` shows that
  `Explains` pins the run down completely.
- `Cancellation` (cancellation.dfy): the flag as a class with the
  `threading.Event` operations, and the "Generate" handler, which clears the
  flag and runs the executor with the default policy of 5 attempts and an
  initial wait of 50.

A 503 reply whose body is not JSON makes `response.json()`
(streamlit_app.py:55) raise, which ends the call; the model gives it the
terminal outcome `LoadingBodyNotJson`.

Two behaviours of the code are kept as written:

- When every attempt is transient, the loop still sleeps after the final
  attempt before giving up.
- The backoff path has no cap (`BackoffExceedsCap`).

## Model

| member | source | states |
|---|---|---|
| Responses.Contains | streamlit_app.py:64 | the busy check is Python's substring test: true exactly when the marker occurs at some index of the text |
| Responses.Classify | streamlit_app.py:46-69 | a reply is retried exactly when it is a 503 with a JSON body or a 500 whose text contains "Model too busy"; it is rejected exactly when its status is not 200, not 503, and not a busy 500, and the rejection keeps its status and text; it is an image exactly when it is a decodable 200; it carries an estimate exactly for a 503 JSON object with `estimated_time`, and that estimate is the announced one |
| Responses.ClassifyCases | streamlit_app.py:46-69 | a reply is undecodable exactly when it is a 200 that does not decode, a non-JSON 503 exactly when `response.json()` fails on a 503, backoff exactly for a 503 JSON object without `estimated_time`, busy exactly for a 500 containing the marker |
| Responses.WaitTime | streamlit_app.py:56-66 | an announced estimate gives a wait of at most 60 and at most the estimate, equal to one of them; backoff gives at least `initial_wait * (attempt + 1)`; a busy reply gives 30 |
| Executor.Settle | streamlit_app.py:46-69 | a reply ends the call exactly when it is not transient; ending never yields "cancelled" or "retries exhausted"; only an image yields success, carrying the elapsed time; an undecodable 200 yields `DecodeError`, a non-JSON 503 `LoadingBodyNotJson`, and a rejected reply `RequestFailed` with its status and text |
| Executor.NoticeFor | streamlit_app.py:61-65 | the warning shows attempt number `attempt + 1` out of `max_retries`, and is the busy warning exactly for a busy reply |
| Executor.HandleReply | streamlit_app.py:46-69 | the branches of the loop body end the call exactly with the outcome `Settle` gives for the reply's case, and otherwise produce the wait of `WaitTime` and the warning of `NoticeFor` |
| Executor.GenerateImage | streamlit_app.py:29-71 | the loop's result satisfies `Explains`: each retried attempt passed its checkpoint, got a transient reply, and was followed by the prescribed warning and sleep; the last attempt was cancelled, ended by its reply with the elapsed time, or beyond the budget |
| ExecutorProperties.ReachesAttempt | streamlit_app.py:40-69 | a run cannot stop at an attempt that passed its checkpoint and got a transient reply |
| ExecutorProperties.StopsAt | streamlit_app.py:40-71 | the run stops exactly at the first attempt that is cancelled or gets a non-transient reply, or after the last allowed attempt |
| ExecutorProperties.CancelStops | streamlit_app.py:40-42 | a flag seen set at the checkpoint of attempt k ends the call with `Cancelled`, with k requests issued: none for attempt k or later |
| ExecutorProperties.SettlesAt | streamlit_app.py:44-69 | the first non-transient reply ends the call on that attempt with the outcome of that reply, after k sleeps and k+1 requests |
| ExecutorProperties.ImageSucceeds | streamlit_app.py:46-50 | a decodable 200 at attempt k returns `Success` on that attempt with elapsed time = all sleeps + all request latencies; no further request or sleep |
| ExecutorProperties.UndecodableFails | streamlit_app.py:47-52 | an undecodable 200 ends the call with `DecodeError` on that attempt; it is not retried |
| ExecutorProperties.UnparsableLoadingFails | streamlit_app.py:54-55 | a 503 whose body is not JSON ends the call on that attempt |
| ExecutorProperties.OtherStatusFails | streamlit_app.py:64-69 | a 500 without the busy marker, or any status other than 200/500/503, ends the call with `RequestFailed` carrying that status and text |
| ExecutorProperties.ExhaustsRetries | streamlit_app.py:40-71 | if every attempt passes its checkpoint and gets a transient reply, the result is `RetriesExhausted` after exactly `max_retries` requests and `max_retries` sleeps, including one after the final attempt |
| ExecutorProperties.NoAttemptsNoRequest | streamlit_app.py:40-71 | with `max_retries = 0`, no request, warning or sleep happens and the call fails with `RetriesExhausted` |
| ExecutorProperties.RequestsBounded | streamlit_app.py:40-65 | sleeps ≤ requests ≤ sleeps + 1 and requests ≤ `max_retries`; one warning per sleep; warning i carries attempt i+1 out of `max_retries` |
| ExecutorProperties.RetriedRepliesAreTransient | streamlit_app.py:41-66 | every attempt followed by a sleep passed its checkpoint and got a 503 with a JSON body or a 500 containing "Model too busy" |
| ExecutorProperties.EstimatedWaitCapped | streamlit_app.py:56-57 | a 503 announcing an estimate is followed by a sleep of exactly `min(estimate, 60)` ≤ 60 and a loading warning showing it |
| ExecutorProperties.BackoffWait | streamlit_app.py:58-59 | a 503 without an estimate at attempt i is followed by a sleep of `initial_wait * 2^i` and a loading warning showing it |
| ExecutorProperties.BusyWaitFixed | streamlit_app.py:64-66 | a 500 that was retried mentions "Model too busy" and is followed by a 30-second sleep and the busy warning |
| ExecutorProperties.BackoffDoubles | streamlit_app.py:59 | each backoff wait is twice the previous one |
| ExecutorProperties.BackoffExceedsCap | streamlit_app.py:57-59 | the 60-second cap applies only to announced estimates: from attempt index 6 on, any positive initial wait gives a backoff wait above 60 |
| ExecutorProperties.DefaultBackoffAboveCap | streamlit_app.py:29-59 | with the default initial wait of 50, every backoff wait from attempt index 1 on exceeds the 60-second cap |
| ExecutorProperties.WaitsBoundedWithoutBackoff | streamlit_app.py:54-66 | if no retried reply took the backoff path, every sleep is ≤ 60 and all sleeps add up to ≤ 60 · `max_retries` |
| ExecutorProperties.SuccessElapsed | streamlit_app.py:39-50 | a success's elapsed time is the clock since the start and covers at least all sleeps; its last reply was a 200 |
| ExecutorProperties.ExplainsUnique | streamlit_app.py:29-71 | two calls with the same policy, replies and flag observations produce the same outcome, requests, warnings and sleeps |
| ExecutorProperties.FourLoadingThenImage | streamlit_app.py:40-62 | under the defaults, four 503 replies followed by a decodable 200 give four sleeps, each by the 503 rule, and `Success` on the fifth attempt |
| Cancellation.CancelFlag.constructor | streamlit_app.py:27 | the flag starts cleared |
| Cancellation.CancelFlag.Set | streamlit_app.py:93 | after the cancel action the flag is set |
| Cancellation.CancelFlag.Clear | streamlit_app.py:98 | after the clear the flag is not set |
| Cancellation.CancelFlag.IsSet | streamlit_app.py:41 | reading the flag returns its current value |
| Cancellation.PressedBy | streamlit_app.py:41 | the level-triggered flag is seen set at checkpoint k exactly when some cancel happened at or before k |
| Cancellation.Generate | streamlit_app.py:96-100 | the run is `generate_image`'s run (`Explains`) under the defaults of 5 attempts and an initial wait of 50, with the flag seen at checkpoint k set exactly when a cancel was pressed after the clear and by k; at most 5 requests are issued; no request follows a checkpoint where a cancel was already pressed; the call is cancelled only if a cancel was pressed by its last checkpoint; a flag left set by an earlier cancel never cancels it |

## Left out

- The HTTP call itself: URL, headers and payload construction (streamlit_app.py:24, 30-37, 44). The endpoint is the function `transport`.
- Image decoding and PNG re-encoding (streamlit_app.py:48, 106-109). These are foreign library calls; decoding is the `decodes` flag of a reply, and the image itself is not carried in `Success`.
- Real sleeping and wall-clock time (streamlit_app.py:39, 49, 62, 66). Sleeps are recorded, and time is a natural-number clock advanced by request latencies and sleeps.
- Floating-point values. `estimated_time` is a natural number, so a fractional or negative estimate (a negative one would make `time.sleep` raise) is not modelled. `guidance_scale` is payload only.
- The text of exception and warning messages, including the first 500 bytes of an undecodable body. Outcomes and notices carry the values these messages show.
- A 503 JSON body that is not an object (for example a list). The model covers "not JSON" and "an object with or without `estimated_time`".
- Concurrency of the flag (streamlit_app.py:8, 27). The other thread's cancel action is the value seen at each checkpoint (`cancelSeen`), or the `presses` function in `Cancellation.Generate`. `Cancellation.Generate` does not apply those presses to the flag object.
- Cancellation.Generate: does not state the flag's state after the call, because the presses of the other actor are not applied to the object.
- A request that raises instead of replying (a connection error from `requests.post`, streamlit_app.py:44): `transport` always returns a reply.
- A non-numeric `estimated_time` (a string or null, for which `min` at streamlit_app.py:57 raises a type error): the estimate is a natural number.
- A negative `max_retries` or `initial_wait` (streamlit_app.py:29): `Policy` holds natural numbers, so a negative backoff wait, which would make `time.sleep` raise, is not modelled.
- The Streamlit page (streamlit_app.py:11, 73-124): layout, widgets, error display, download button, and the model table `MODELS` (streamlit_app.py:15-21), a constant lookup.
- Responses.WaitTime: states the backoff wait only as at least `initial_wait * (attempt + 1)`; the exact value `initial_wait * 2^attempt` is stated by `ExecutorProperties.BackoffWait`.
