/**
 * Replies of the remote inference endpoint, their classification into the
 * cases the retry loop of `generate_image` distinguishes, and the rule that
 * computes how long to wait before the next attempt.
 */
module Responses {

  datatype Option<T> = None | Some(value: T)

  /** The body of a reply as `response.json()` sees it. */
  datatype JsonBody =
    | NotJson                                // `response.json()` raises
    | JsonObject(estimatedTime: Option<nat>) // a JSON object, with or without "estimated_time"

  /**
   * One reply of the endpoint. `text` is the body read as text, `decodes`
   * says whether the image library can open the body as an image, `json`
   * is the body parsed as JSON, and `latency` is the time the request took.
   */
  datatype Response = Response(status: int, text: string, decodes: bool, json: JsonBody, latency: nat)

  /** The cases the retry loop tells apart. */
  datatype Kind =
    | Image                                 // 200 whose body decodes
    | Undecodable                           // 200 whose body does not decode
    | LoadingEstimated(estimate: nat)       // 503 carrying "estimated_time"
    | LoadingUnestimated                    // 503 whose JSON has no "estimated_time"
    | LoadingUnparsable                     // 503 whose body is not JSON
    | Busy                                  // 500 whose text mentions the busy marker
    | Rejected(status: int, text: string)   // anything else
  {
    /** The transient cases: the loop waits and tries again. */
    predicate Retried() {
      LoadingEstimated? || LoadingUnestimated? || Busy?
    }
  }

  const BusyMarker: string := "Model too busy"
  /** Upper bound on a wait the server announces through "estimated_time". */
  const EstimateCap: nat := 60
  /** Fixed wait after a busy reply. */
  const BusyWait: nat := 30

  /** `pat` occurs in `s` starting at index `i`. */
  ghost predicate OccursAt(s: string, pat: string, i: nat) {
    i + |pat| <= |s| && s[i..i + |pat|] == pat
  }

  lemma OccursShift(s: string, pat: string)
    requires |s| > 0
    ensures forall i: nat :: OccursAt(s[1..], pat, i) <==> OccursAt(s, pat, i + 1)
  {
    forall i: nat
      ensures OccursAt(s[1..], pat, i) <==> OccursAt(s, pat, i + 1)
    {
      if i + |pat| <= |s[1..]| {
        assert s[1..][i..i + |pat|] == s[i + 1..i + 1 + |pat|];
      }
    }
  }

  /** Python's substring test `pat in s`. */
  function Contains(s: string, pat: string): (b: bool)
    ensures b <==> exists i: nat :: OccursAt(s, pat, i)
    decreases |s|
  {
    if |s| < |pat| then false
    else if s[..|pat|] == pat then assert OccursAt(s, pat, 0); true
    else
      OccursShift(s, pat);
      assert !OccursAt(s, pat, 0);
      assert forall i: nat :: OccursAt(s, pat, i) ==> i > 0 && OccursAt(s[1..], pat, i - 1);
      Contains(s[1..], pat)
  }

  /** The classifier of the loop body: which case a reply falls into. */
  function Classify(r: Response): (k: Kind)
    ensures k == Image <==> r.status == 200 && r.decodes
    ensures k.Retried() <==>
              (r.status == 503 && r.json.JsonObject?) || (r.status == 500 && Contains(r.text, BusyMarker))
    ensures k.Rejected? <==>
              r.status != 200 && r.status != 503 && !(r.status == 500 && Contains(r.text, BusyMarker))
    ensures k.Rejected? ==> k.status == r.status && k.text == r.text
    ensures k.LoadingEstimated? <==> r.status == 503 && r.json.JsonObject? && r.json.estimatedTime.Some?
    ensures k.LoadingEstimated? ==> k.estimate == r.json.estimatedTime.value
  {
    if r.status == 200 then
      if r.decodes then Image else Undecodable
    else if r.status == 503 then
      match r.json
      case NotJson => LoadingUnparsable
      case JsonObject(None) => LoadingUnestimated
      case JsonObject(Some(e)) => LoadingEstimated(e)
    else if r.status == 500 && Contains(r.text, BusyMarker) then
      Busy
    else
      Rejected(r.status, r.text)
  }

  /** The remaining cases of `Classify`, each exactly characterised by the reply. */
  lemma ClassifyCases(r: Response)
    ensures Classify(r) == Undecodable <==> r.status == 200 && !r.decodes
    ensures Classify(r) == LoadingUnestimated <==> r.status == 503 && r.json == JsonObject(None)
    ensures Classify(r) == LoadingUnparsable <==> r.status == 503 && r.json.NotJson?
    ensures Classify(r) == Busy <==> r.status == 500 && Contains(r.text, BusyMarker)
  {
  }

  /** Python's `2 ** n` on a natural exponent. */
  function Pow2(n: nat): (p: nat)
    ensures p >= n + 1
  {
    if n == 0 then 1 else 2 * Pow2(n - 1)
  }

  lemma MulMonotone(a: nat, b: nat, c: nat)
    requires b <= c
    ensures a * b <= a * c
  {
    assert a * c == a * b + a * (c - b);
  }

  function Min(a: nat, b: nat): nat {
    if a <= b then a else b
  }

  /**
   * The wait before the next attempt: the server's estimate capped at
   * `EstimateCap`, else exponential backoff from `initialWait` (uncapped),
   * or the fixed busy wait.
   */
  function WaitTime(k: Kind, attempt: nat, initialWait: nat): (w: nat)
    requires k.Retried()
    ensures k.LoadingEstimated? ==> w <= EstimateCap && w <= k.estimate
    ensures k.LoadingEstimated? ==> w == k.estimate || w == EstimateCap
    ensures k.LoadingUnestimated? ==> w >= initialWait * (attempt + 1)
    ensures k.Busy? ==> w == BusyWait
  {
    match k
    case LoadingEstimated(e) => Min(e, EstimateCap)
    case LoadingUnestimated =>
      MulMonotone(initialWait, attempt + 1, Pow2(attempt));
      initialWait * Pow2(attempt)
    case Busy => BusyWait
  }
}
