/**
 * `postToClay` of src/lib/post_to_clay.ts: one webhook POST, repeated after
 * a network error or a non-4xx failure status while retries remain, waiting
 * a linearly growing delay before each repeat.
 */
module Clay {
  import opened Wrappers
  import opened Json
  import opened Http

  /** `ClayPostResult`. */
  datatype ClayResult =
    | Posted(status: int, body: Json)
    | Failed(reportedStatus: Option<int>, error: string, reportedBody: Option<Json>)

  const DefaultRetries: int := 1
  const DefaultRetryDelayMs: int := 300
  const NoUrl := "No CLAY_WEBHOOK_URL configured"

  /** A status in 400..499: a failure the webhook will not get over by being asked again. */
  predicate IsClientError(status: int) {
    400 <= status < 500
  }

  /** An outcome that ends the loop whatever the retries left: a 2xx or a 4xx reply. */
  predicate Terminal(f: Fetched) {
    f.Responded? && (f.reply.Ok() || IsClientError(f.reply.status))
  }

  /** The result an attempt gives when it is not repeated. */
  function Final(f: Fetched): (r: ClayResult)
    ensures r.Posted? <==> f.Responded? && f.reply.Ok()
    ensures r.Posted? ==> r == Posted(f.reply.status, f.reply.Body())
    ensures f.Responded? && !f.reply.Ok() ==>
      (r.Failed? && r.reportedStatus == Some(f.reply.status) && r.reportedBody == Some(f.reply.Body())
       && (r.error == "Clay 4xx" <==> IsClientError(f.reply.status)))
    ensures f.Threw? ==> r == Failed(None, f.message, None)
  {
    match f
    case Threw(message) => Failed(None, message, None)
    case Responded(reply) =>
      if reply.Ok() then Posted(reply.status, reply.Body())
      else if IsClientError(reply.status) then Failed(Some(reply.status), "Clay 4xx", Some(reply.Body()))
      else Failed(Some(reply.status), "Clay 5xx", Some(reply.Body()))
  }

  /**
   * The loop from attempt `k` on, with `outcomes(n)` what attempt `n` (counted
   * from 0) yields: the result and the number of requests made in all. The
   * loop stops at the first terminal outcome, or at attempt `retries` when
   * none comes sooner.
   */
  function Run(k: nat, retries: int, outcomes: nat -> Fetched): (res: (ClayResult, nat))
    ensures k < res.1 && (res.1 <= k + 1 || res.1 <= retries + 1)
    ensures res.0 == Final(outcomes(res.1 - 1))
    ensures Terminal(outcomes(res.1 - 1)) || res.1 - 1 >= retries
    ensures forall i :: k <= i < res.1 - 1 ==> !Terminal(outcomes(i)) && i < retries
    decreases if k < retries then retries - k else 0
  {
    if Terminal(outcomes(k)) || k >= retries then (Final(outcomes(k)), k + 1)
    else Run(k + 1, retries, outcomes)
  }

  /** The waits before the repeats: `retryDelayMs × n` before repeat `n`. */
  function Backoff(repeats: nat, delay: int): (waits: seq<int>)
    ensures |waits| == repeats
    ensures forall i :: 0 <= i < repeats ==> waits[i] == delay * (i + 1)
  {
    seq(repeats, i => delay * (i + 1))
  }

  /**
   * `postToClay`. `url` is the option passed (None when omitted) and
   * `envUrl` is `CLAY_WEBHOOK_URL`; `outcomes(n)` is what request `n` yields.
   * Returns the result, the number of requests made, and the waits between
   * them in milliseconds.
   */
  method PostToClay(url: Option<string>, envUrl: Option<string>, retries: Option<int>, retryDelayMs: Option<int>,
                    outcomes: nat -> Fetched)
    returns (r: ClayResult, attempts: nat, delays: seq<int>)
    ensures var target := if url.Some? then url else envUrl;
      target.None? || target.value == "" <==> attempts == 0
    ensures attempts == 0 ==> r == Failed(None, NoUrl, None) && delays == []
    ensures attempts > 0 ==> (r, attempts) == Run(0, retries.GetOr(DefaultRetries), outcomes)
    ensures attempts > 0 ==> delays == Backoff(attempts - 1, retryDelayMs.GetOr(DefaultRetryDelayMs))
  {
    var target := if url.Some? then url else envUrl;
    if target.None? || target.value == "" {
      return Failed(None, NoUrl, None), 0, [];
    }
    var limit := retries.GetOr(DefaultRetries);
    var delay := retryDelayMs.GetOr(DefaultRetryDelayMs);
    var attempt: nat := 0;
    delays := [];
    while true
      invariant Run(attempt, limit, outcomes) == Run(0, limit, outcomes)
      invariant delays == Backoff(attempt, delay)
      decreases if attempt < limit then limit - attempt else 0
    {
      RunStep(attempt, limit, outcomes);
      var done := Attempt(outcomes(attempt), attempt >= limit);
      if done.Some? {
        return done.value, attempt + 1, delays;
      }
      BackoffStep(attempt, delay);
      attempt := attempt + 1;
      delays := delays + [delay * attempt];
    }
  }

  /**
   * One pass of the loop body on the outcome `f` of a request: the result
   * when the loop ends here, None when it goes on to another attempt.
   * `isLast` tells whether the retries are used up.
   */
  method Attempt(f: Fetched, isLast: bool) returns (done: Option<ClayResult>)
    ensures done.Some? <==> Terminal(f) || isLast
    ensures done.Some? ==> done.value == Final(f)
  {
    if f.Responded? {
      var body := f.reply.Body();
      if f.reply.Ok() {
        return Some(Posted(f.reply.status, body));
      }
      if IsClientError(f.reply.status) {
        return Some(Failed(Some(f.reply.status), "Clay 4xx", Some(body)));
      }
    }
    if !isLast {
      return None;
    }
    if f.Responded? {
      return Some(Failed(Some(f.reply.status), "Clay 5xx", Some(f.reply.Body())));
    }
    return Some(Failed(None, f.message, None));
  }

  lemma BackoffStep(n: nat, delay: int)
    ensures Backoff(n + 1, delay) == Backoff(n, delay) + [delay * (n + 1)]
  {
  }

  /** One step of the loop: stop with the attempt's result, or go on to the next attempt. */
  lemma RunStep(k: nat, retries: int, outcomes: nat -> Fetched)
    ensures Terminal(outcomes(k)) || k >= retries ==> Run(k, retries, outcomes) == (Final(outcomes(k)), k + 1)
    ensures !Terminal(outcomes(k)) && k < retries ==> Run(k, retries, outcomes) == Run(k + 1, retries, outcomes)
  {
  }

  /** A 4xx reply ends the loop at once, whatever the retries left. */
  lemma {:induction false} ClientErrorNotRetried(k: nat, n: nat, retries: int, outcomes: nat -> Fetched)
    requires k <= n && outcomes(n).Responded? && IsClientError(outcomes(n).reply.status)
    requires forall i :: k <= i < n ==> !Terminal(outcomes(i)) && i < retries
    ensures Run(k, retries, outcomes) ==
      (Failed(Some(outcomes(n).reply.status), "Clay 4xx", Some(outcomes(n).reply.Body())), n + 1)
    decreases n - k
  {
    if k < n {
      forall i | k + 1 <= i < n ensures !Terminal(outcomes(i)) && i < retries {
        assert k <= i < n;
      }
      ClientErrorNotRetried(k + 1, n, retries, outcomes);
    }
  }

  /** When every request fails with a non-4xx status, all `retries + 1` are made and the last status is reported as "Clay 5xx" (a 3xx included). */
  lemma {:induction false} ExhaustedAs5xx(k: nat, retries: int, outcomes: nat -> Fetched)
    requires k <= retries
    requires forall i :: k <= i <= retries ==> outcomes(i).Responded? && !outcomes(i).reply.Ok() && !IsClientError(outcomes(i).reply.status)
    ensures Run(k, retries, outcomes) ==
      (Failed(Some(outcomes(retries).reply.status), "Clay 5xx", Some(outcomes(retries).reply.Body())), retries + 1)
    decreases retries - k
  {
    if k < retries {
      ExhaustedAs5xx(k + 1, retries, outcomes);
    }
  }
}
