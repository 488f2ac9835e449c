/** The GraphQL client's request classification and its retry engine.

    The network, the token provider and the JSON codec are outside the model: what one
    attempt observes is an `Exchange`, and a `Server` is a function from the attempt's
    `(retryCount, forceTokenRefresh)` to what that attempt observes. Sleeping is recorded,
    not performed: each attempt logs how long the engine waits after it, in units of
    `baseDelay`. */
module GraphQLClient {
  import opened Wrappers
  import opened ApiErrors

  /** The client's defaults for `maxRetries` and `baseDelay` (seconds). */
  const DefaultMaxRetries: int := 3
  const DefaultBaseDelay: real := 0.1

  /** The body of a response, as the decoder sees it. */
  datatype Body<T> =
    | Undecodable(reason: string)
    | Envelope(data: Option<T>, errors: Option<seq<GraphQLError>>)

  /** Everything one call of `performRequest` can run into, in the order it runs into
      them: the token provider, the body encoder, the transport, then the response. */
  datatype Exchange<T> =
    | TokenFailure(thrown: Thrown)
    | EncodingFailure(reason: string)
    | TransportFailure(urlError: UrlError)
    | NotHttp
    | Response(statusCode: int, body: Body<T>)

  /** What the server answers to the attempt with the given retry count and refresh flag. */
  type Server<T> = (nat, bool) -> Exchange<T>

  /** The checks `performRequest` applies to an HTTP response, in order: status code,
      decoding, error list, data. */
  function ClassifyResponse<T>(statusCode: int, body: Body<T>): (r: Result<T, APIClientError>)
    ensures r.Success? <==>
      200 <= statusCode <= 299 && body.Envelope? && body.data.Some?
      && (body.errors.None? || body.errors.value == [])
    ensures r.Success? ==> r.value == body.data.value
    ensures !(200 <= statusCode <= 299) ==>
      r == Failure(if statusCode == 401 then Unauthorized else Http(statusCode))
    ensures 200 <= statusCode <= 299 && body.Undecodable? ==> r == Failure(DecodingError(body.reason))
    ensures (200 <= statusCode <= 299 && body.Envelope? && (body.errors.None? || body.errors.value == [])
             && body.data.None?) ==> r == Failure(NoData)
  {
    if !(200 <= statusCode <= 299) then
      Failure(if statusCode == 401 then Unauthorized else Http(statusCode))
    else
      match body
      case Undecodable(reason) => Failure(DecodingError(reason))
      case Envelope(data, errors) =>
        if errors.Some? && errors.value != [] then
          Failure(if HasAuthMarker(errors.value) then Unauthorized else GraphQLErrors(errors.value))
        else if data.None? then Failure(NoData)
        else Success(data.value)
  }

  /** `performRequest`: the outcome of one attempt. */
  function PerformRequest<T>(x: Exchange<T>): (r: Result<T, Thrown>)
    ensures x.TransportFailure? ==> r == Failure(Url(x.urlError))
    ensures r.Success? <==> x.Response? && ClassifyResponse(x.statusCode, x.body).Success?
  {
    match x
    case TokenFailure(t) => Failure(t)
    case EncodingFailure(reason) => Failure(Foreign(reason))
    case TransportFailure(u) => Failure(Url(u))
    case NotHttp => Failure(Api(Unknown("Invalid response type")))
    case Response(code, body) =>
      match ClassifyResponse(code, body)
      case Success(v) => Success(v)
      case Failure(e) => Failure(Api(e))
  }

  /** A successful status with a non-empty error list fails even when data is present,
      and the error list decides between `.unauthorized` and `.graphQLErrors`. */
  lemma ErrorsOverrideData<T>(statusCode: int, data: Option<T>, errors: seq<GraphQLError>)
    requires 200 <= statusCode <= 299 && errors != []
    ensures ClassifyResponse(statusCode, Envelope(data, Some(errors))) ==
      Failure(if exists g :: g in errors && IsAuthMarker(g) then Unauthorized else GraphQLErrors(errors))
  {
    if HasAuthMarker(errors) {
      var i :| 0 <= i < |errors| && IsAuthMarker(errors[i]);
      assert errors[i] in errors;
    }
  }

  /** What the engine does with a failed attempt. */
  datatype Decision =
    | RefreshAndRetry
    | BackOff(units: nat)
    | Rethrow(thrown: Thrown)

  function Pow2(k: nat): (p: nat)
    ensures p >= 1
  {
    if k == 0 then 1 else 2 * Pow2(k - 1)
  }

  /** What the engine rethrows for a failure it gives up on: a raw transport error
      becomes `.client`, everything else is rethrown as it was caught. */
  function Escalated(t: Thrown): (e: Thrown)
    ensures !e.Url?
    ensures t.Url? ==> e == Api(Client(t.urlError))
    ensures !t.Url? ==> e == t
  {
    if t.Url? then Api(Client(t.urlError)) else t
  }

  /** The two `catch` clauses of `executeWithRetry`. */
  function Decide(failure: Thrown, retryCount: nat, maxRetries: int): (d: Decision)
    ensures d.RefreshAndRetry? ==> retryCount == 0 && failure.Api? && IsUnauthorized(failure.error)
    ensures d.BackOff? ==> retryCount < maxRetries && d.units == Pow2(retryCount)
    ensures d.BackOff? ==> (failure.Api? && IsRetryable(failure.error))
                           || (failure.Url? && IsRetryable(Client(failure.urlError)))
    ensures d.Rethrow? ==> d.thrown == Escalated(failure)
  {
    match failure
    case Api(e) =>
      if IsUnauthorized(e) && retryCount == 0 then RefreshAndRetry
      else if IsRetryable(e) && retryCount < maxRetries then BackOff(Pow2(retryCount))
      else Rethrow(failure)
    case Url(u) =>
      if IsRetryable(Client(u)) && retryCount < maxRetries then BackOff(Pow2(retryCount))
      else Rethrow(Api(Client(u)))
    case Foreign(_) => Rethrow(failure)
  }

  /** How the engine reacts to each kind of failure: an authorization failure is retried
      with a fresh token only on the first attempt, a retryable failure backs off only
      while the budget lasts, a raw transport error is rethrown as `.client`, and
      anything else is rethrown unchanged. */
  lemma DecideCases(failure: Thrown, retryCount: nat, maxRetries: int)
    ensures failure.Api? && IsUnauthorized(failure.error) ==>
      Decide(failure, retryCount, maxRetries) ==
        (if retryCount == 0 then RefreshAndRetry else Rethrow(failure))
    ensures failure.Api? && IsRetryable(failure.error) ==>
      Decide(failure, retryCount, maxRetries) ==
        (if retryCount < maxRetries then BackOff(Pow2(retryCount)) else Rethrow(failure))
    ensures failure.Url? ==>
      Decide(failure, retryCount, maxRetries) ==
        (if IsNetworkError(Client(failure.urlError)) && retryCount < maxRetries
         then BackOff(Pow2(retryCount)) else Rethrow(Api(Client(failure.urlError))))
    ensures failure.Foreign? ==> Decide(failure, retryCount, maxRetries) == Rethrow(failure)
    ensures failure.Api? && !IsUnauthorized(failure.error) && !IsRetryable(failure.error) ==>
      Decide(failure, retryCount, maxRetries) == Rethrow(failure)
  {
    if failure.Api? {
      RetryableAndUnauthorizedDisjoint(failure.error);
    }
  }

  /** One attempt: its retry count, whether it forced a token refresh, and how many
      `baseDelay`s the engine slept after it (0 when it did not sleep). */
  datatype Attempt = Attempt(retryCount: nat, forceTokenRefresh: bool, waitAfter: nat)

  datatype Run<T> = Run(outcome: Result<T, Thrown>, attempts: seq<Attempt>)

  function Max(a: int, b: int): int
  {
    if a < b then b else a
  }

  /** The retry budget as seen from `retryCount`: the number of further attempts the
      engine may still make. */
  function Budget(maxRetries: int, retryCount: nat): nat
  {
    if retryCount < Max(maxRetries, 1) then Max(maxRetries, 1) - retryCount else 0
  }

  /** `executeWithRetry`. The attempts are numbered consecutively from `retryCount`,
      the first one uses the given refresh flag, at most `Budget` retries follow it,
      and the last attempt is not followed by a sleep; `AttemptsNumbered` states that
      the attempts count up from `retryCount`. What the outcome is, is stated
      by `ExecuteOutcome`. */
  function ExecuteWithRetry<T>(server: Server<T>, maxRetries: int, forceTokenRefresh: bool, retryCount: nat)
    : (run: Run<T>)
    ensures |run.attempts| >= 1
    ensures run.attempts[0].retryCount == retryCount
    ensures run.attempts[0].forceTokenRefresh == forceTokenRefresh
    ensures |run.attempts| <= Budget(maxRetries, retryCount) + 1
    ensures run.attempts[|run.attempts| - 1].waitAfter == 0
    decreases Budget(maxRetries, retryCount)
  {
    var r := PerformRequest(server(retryCount, forceTokenRefresh));
    if r.Success? then Run(r, [Attempt(retryCount, forceTokenRefresh, 0)])
    else
      var d := Decide(r.error, retryCount, maxRetries);
      if d.Rethrow? then Run(Failure(d.thrown), [Attempt(retryCount, forceTokenRefresh, 0)])
      else
        // a refresh retry forces a new token; a back-off retry keeps the flag
        var rest := ExecuteWithRetry(server, maxRetries, d.RefreshAndRetry? || forceTokenRefresh, retryCount + 1);
        Run(rest.outcome, [Attempt(retryCount, forceTokenRefresh, if d.BackOff? then d.units else 0)] + rest.attempts)
  }

  /** `outcome` is what the attempt `last` returned: its value, or the error it failed
      with, escalated, once the engine decided to give up on it. */
  ghost predicate Concludes<T>(server: Server<T>, maxRetries: int, outcome: Result<T, Thrown>, last: Attempt)
  {
    var tried := PerformRequest(server(last.retryCount, last.forceTokenRefresh));
    if outcome.Success? then outcome == tried
    else
      && tried.Failure?
      && Decide(tried.error, last.retryCount, maxRetries).Rethrow?
      && outcome.error == Escalated(tried.error)
  }

  function Last(attempts: seq<Attempt>): Attempt
    requires attempts != []
  {
    attempts[|attempts| - 1]
  }

  /** The outcome of a run is the conclusion of its last attempt. */
  lemma {:induction false} ExecuteOutcome<T>(server: Server<T>, maxRetries: int, force: bool, retryCount: nat)
    ensures var run := ExecuteWithRetry(server, maxRetries, force, retryCount);
      Concludes(server, maxRetries, run.outcome, Last(run.attempts))
    decreases Budget(maxRetries, retryCount)
  {
    if Retries(server, maxRetries, force, retryCount) {
      var d := Decide(PerformRequest(server(retryCount, force)).error, retryCount, maxRetries);
      var f := d.RefreshAndRetry? || force;
      ExecuteStep(server, maxRetries, force, retryCount);
      ExecuteOutcome(server, maxRetries, f, retryCount + 1);
      var rest := ExecuteWithRetry(server, maxRetries, f, retryCount + 1);
      var head := Attempt(retryCount, force, if d.BackOff? then d.units else 0);
      LastOfCons(head, rest.attempts);
    } else {
      StopConcludes(server, maxRetries, force, retryCount);
    }
  }

  lemma LastOfCons(head: Attempt, rest: seq<Attempt>)
    requires rest != []
    ensures Last([head] + rest) == Last(rest)
  {
  }

  lemma StopConcludes<T>(server: Server<T>, maxRetries: int, force: bool, retryCount: nat)
    requires !Retries(server, maxRetries, force, retryCount)
    ensures var run := ExecuteWithRetry(server, maxRetries, force, retryCount);
      Concludes(server, maxRetries, run.outcome, Last(run.attempts))
  {
    ExecuteStop(server, maxRetries, force, retryCount);
    assert Last([Attempt(retryCount, force, 0)]) == Attempt(retryCount, force, 0);
  }

  /** `execute`: start with a cached token and a retry count of zero. */
  function Execute<T>(server: Server<T>, maxRetries: int): (run: Run<T>)
    ensures 1 <= |run.attempts| <= Max(maxRetries, 1) + 1
    ensures run.attempts[0].forceTokenRefresh == false
  {
    ExecuteWithRetry(server, maxRetries, false, 0)
  }

  /** The total time slept, in `baseDelay`s. */
  function TotalWait(attempts: seq<Attempt>): nat
  {
    if attempts == [] then 0 else attempts[0].waitAfter + TotalWait(attempts[1..])
  }

  /** A failed attempt the engine does not give up on is followed by the run from the
      next retry count. */
  predicate Retries<T>(server: Server<T>, maxRetries: int, force: bool, retryCount: nat)
  {
    var r := PerformRequest(server(retryCount, force));
    r.Failure? && !Decide(r.error, retryCount, maxRetries).Rethrow?
  }

  /** One retry of `ExecuteWithRetry`: the attempt, then the run it recurses into. */
  lemma ExecuteStep<T>(server: Server<T>, maxRetries: int, force: bool, retryCount: nat)
    requires Retries(server, maxRetries, force, retryCount)
    ensures var d := Decide(PerformRequest(server(retryCount, force)).error, retryCount, maxRetries);
      var rest := ExecuteWithRetry(server, maxRetries, d.RefreshAndRetry? || force, retryCount + 1);
      ExecuteWithRetry(server, maxRetries, force, retryCount) ==
        Run(rest.outcome, [Attempt(retryCount, force, if d.BackOff? then d.units else 0)] + rest.attempts)
  {
  }

  /** A run in which no retry happens is a single attempt without a sleep. */
  lemma ExecuteStop<T>(server: Server<T>, maxRetries: int, force: bool, retryCount: nat)
    requires !Retries(server, maxRetries, force, retryCount)
    ensures var r := PerformRequest(server(retryCount, force));
      ExecuteWithRetry(server, maxRetries, force, retryCount) ==
        Run(if r.Success? then r else Failure(Escalated(r.error)), [Attempt(retryCount, force, 0)])
  {
  }

  /** The attempts count up from `first`. */
  predicate NumberedFrom(attempts: seq<Attempt>, first: nat)
  {
    forall k :: 0 <= k < |attempts| ==> attempts[k].retryCount == first + k
  }

  /** The attempts of a run are numbered consecutively from `retryCount`. */
  lemma {:induction false} AttemptsNumbered<T>(server: Server<T>, maxRetries: int, force: bool, retryCount: nat)
    ensures NumberedFrom(ExecuteWithRetry(server, maxRetries, force, retryCount).attempts, retryCount)
    decreases Budget(maxRetries, retryCount)
  {
    if Retries(server, maxRetries, force, retryCount) {
      var f, a := RetryAttempts(server, maxRetries, force, retryCount);
      AttemptsNumbered(server, maxRetries, f, retryCount + 1);
      NumberedCons(a, ExecuteWithRetry(server, maxRetries, f, retryCount + 1).attempts);
    } else {
      ExecuteStop(server, maxRetries, force, retryCount);
    }
  }

  /** A retried attempt, then the attempts of the run that follows it. */
  lemma RetryAttempts<T>(server: Server<T>, maxRetries: int, force: bool, retryCount: nat) returns (f: bool, a: Attempt)
    requires Retries(server, maxRetries, force, retryCount)
    ensures ExecuteWithRetry(server, maxRetries, force, retryCount).attempts
      == [a] + ExecuteWithRetry(server, maxRetries, f, retryCount + 1).attempts
    ensures a.retryCount == retryCount
    ensures Budget(maxRetries, retryCount + 1) < Budget(maxRetries, retryCount)
  {
    var d := Decide(PerformRequest(server(retryCount, force)).error, retryCount, maxRetries);
    f := d.RefreshAndRetry? || force;
    a := Attempt(retryCount, force, if d.BackOff? then d.units else 0);
    ExecuteStep(server, maxRetries, force, retryCount);
  }

  lemma NumberedCons(a: Attempt, rest: seq<Attempt>)
    requires NumberedFrom(rest, a.retryCount + 1)
    ensures NumberedFrom([a] + rest, a.retryCount)
  {
    var attempts := [a] + rest;
    forall k | 1 <= k < |attempts|
      ensures attempts[k].retryCount == a.retryCount + k
    {
      assert attempts[k] == rest[k - 1];
    }
  }

  /** Every attempt of the run uses the refresh flag `force`. */
  predicate AllForce(attempts: seq<Attempt>, force: bool)
  {
    forall k :: 0 <= k < |attempts| ==> attempts[k].forceTokenRefresh == force
  }

  /** Once past the first attempt the refresh flag never changes: a retry after a
      back-off reuses the flag of the attempt before it. */
  lemma {:induction false} RefreshFlagIsSticky<T>(server: Server<T>, maxRetries: int, force: bool, retryCount: nat)
    requires retryCount >= 1
    ensures AllForce(ExecuteWithRetry(server, maxRetries, force, retryCount).attempts, force)
    decreases Budget(maxRetries, retryCount)
  {
    if Retries(server, maxRetries, force, retryCount) {
      ExecuteStep(server, maxRetries, force, retryCount);
      RefreshFlagIsSticky(server, maxRetries, force, retryCount + 1);
    } else {
      ExecuteStop(server, maxRetries, force, retryCount);
    }
  }

  predicate FailedUnauthorized(t: Thrown)
  {
    t.Api? && IsUnauthorized(t.error)
  }

  /** From the second attempt on, either every attempt forces a token refresh (exactly
      when the first one failed as unauthorized) or none does. */
  lemma RefreshFlags<T>(server: Server<T>, maxRetries: int)
    ensures var first := PerformRequest(server(0, false));
      AllForce(Execute(server, maxRetries).attempts[1..], first.Failure? && FailedUnauthorized(first.error))
  {
    var first := PerformRequest(server(0, false));
    if Retries(server, maxRetries, false, 0) {
      var d := Decide(first.error, 0, maxRetries);
      DecideCases(first.error, 0, maxRetries);
      ExecuteStep(server, maxRetries, false, 0);
      RefreshFlagIsSticky(server, maxRetries, d.RefreshAndRetry?, 1);
    } else {
      ExecuteStop(server, maxRetries, false, 0);
    }
  }

  /** Every sleep is `2^retryCount` units of the attempt it follows, so the time slept
      from `retryCount` on stays below `2^max(maxRetries, retryCount)` units. */
  lemma {:induction false} WaitBound<T>(server: Server<T>, maxRetries: int, force: bool, retryCount: nat)
    ensures TotalWait(ExecuteWithRetry(server, maxRetries, force, retryCount).attempts) + Pow2(retryCount)
      <= Pow2(Max(maxRetries, retryCount))
    decreases Budget(maxRetries, retryCount)
  {
    if Retries(server, maxRetries, force, retryCount) {
      var f, w := RetryWait(server, maxRetries, force, retryCount);
      WaitBound(server, maxRetries, f, retryCount + 1);
      WaitStep(retryCount, maxRetries, w, TotalWait(ExecuteWithRetry(server, maxRetries, f, retryCount + 1).attempts));
    } else {
      StopWait(server, maxRetries, force, retryCount);
      Pow2Monotone(retryCount, Max(maxRetries, retryCount));
    }
  }

  /** A run that stops at once does not sleep. */
  lemma StopWait<T>(server: Server<T>, maxRetries: int, force: bool, retryCount: nat)
    requires !Retries(server, maxRetries, force, retryCount)
    ensures TotalWait(ExecuteWithRetry(server, maxRetries, force, retryCount).attempts) == 0
  {
    ExecuteStop(server, maxRetries, force, retryCount);
    TotalWaitCons(Attempt(retryCount, force, 0), []);
  }

  /** The sleep after a retried attempt, and the run that follows it. */
  lemma RetryWait<T>(server: Server<T>, maxRetries: int, force: bool, retryCount: nat) returns (f: bool, w: nat)
    requires Retries(server, maxRetries, force, retryCount)
    ensures TotalWait(ExecuteWithRetry(server, maxRetries, force, retryCount).attempts)
      == w + TotalWait(ExecuteWithRetry(server, maxRetries, f, retryCount + 1).attempts)
    ensures (w == Pow2(retryCount) && retryCount < maxRetries) || (w == 0 && retryCount == 0)
    ensures Budget(maxRetries, retryCount + 1) < Budget(maxRetries, retryCount)
  {
    var d := Decide(PerformRequest(server(retryCount, force)).error, retryCount, maxRetries);
    f := d.RefreshAndRetry? || force;
    w := if d.BackOff? then d.units else 0;
    var rest := ExecuteWithRetry(server, maxRetries, f, retryCount + 1);
    ExecuteStep(server, maxRetries, force, retryCount);
    TotalWaitCons(Attempt(retryCount, force, w), rest.attempts);
  }

  /** The arithmetic of one step of `WaitBound`: a back-off of `2^retryCount` within
      the budget, or a refresh on the first attempt without a sleep. */
  lemma WaitStep(retryCount: nat, maxRetries: int, w: nat, restWait: nat)
    requires restWait + Pow2(retryCount + 1) <= Pow2(Max(maxRetries, retryCount + 1))
    requires (w == Pow2(retryCount) && retryCount < maxRetries) || (w == 0 && retryCount == 0)
    ensures w + restWait + Pow2(retryCount) <= Pow2(Max(maxRetries, retryCount))
  {
    assert Pow2(retryCount + 1) == 2 * Pow2(retryCount);
    if retryCount < maxRetries {
      assert Max(maxRetries, retryCount + 1) == Max(maxRetries, retryCount);
    } else {
      assert Pow2(1) == 2;
    }
  }

  lemma TotalWaitCons(a: Attempt, rest: seq<Attempt>)
    ensures TotalWait([a] + rest) == a.waitAfter + TotalWait(rest)
  {
    assert ([a] + rest)[1..] == rest;
  }

  lemma {:induction false} Pow2Monotone(a: nat, b: nat)
    requires a <= b
    ensures Pow2(a) <= Pow2(b)
    decreases b
  {
    if a < b {
      Pow2Monotone(a, b - 1);
    }
  }

  /** With the default budget of 3 retries the engine sleeps at most 7 `baseDelay`s
      (0.7 seconds) over one call. */
  lemma ExecuteWaitBound<T>(server: Server<T>, maxRetries: int)
    ensures TotalWait(Execute(server, maxRetries).attempts) < Pow2(Max(maxRetries, 0))
    ensures maxRetries == DefaultMaxRetries ==>
      TotalWait(Execute(server, maxRetries).attempts) as real * DefaultBaseDelay <= 0.7
  {
    WaitBound(server, maxRetries, false, 0);
    assert Pow2(3) == 8;
  }

  /** A server that keeps answering 503: four attempts, sleeps of 1, 2 and 4
      `baseDelay`s between them, and the 503 is rethrown. */
  lemma PersistentServiceUnavailable()
    ensures var server: Server<int> := (k: nat, f: bool) => Response(503, Envelope(None, None));
      Execute(server, DefaultMaxRetries) ==
        Run(Failure(Api(Http(503))),
            [Attempt(0, false, 1), Attempt(1, false, 2), Attempt(2, false, 4), Attempt(3, false, 0)])
  {
    var server: Server<int> := (k: nat, f: bool) => Response(503, Envelope(None, None));
    assert ExecuteWithRetry(server, 3, false, 3) == Run(Failure(Api(Http(503))), [Attempt(3, false, 0)]);
    assert ExecuteWithRetry(server, 3, false, 2).attempts == [Attempt(2, false, 4), Attempt(3, false, 0)];
    assert ExecuteWithRetry(server, 3, false, 1).attempts
      == [Attempt(1, false, 2), Attempt(2, false, 4), Attempt(3, false, 0)];
  }

  /** A server that keeps answering 401: one retry with a refreshed token, then
      `.unauthorized` is rethrown without any sleep. */
  lemma PersistentUnauthorized()
    ensures var server: Server<int> := (k: nat, f: bool) => Response(401, Envelope(None, None));
      Execute(server, DefaultMaxRetries) ==
        Run(Failure(Api(Unauthorized)), [Attempt(0, false, 0), Attempt(1, true, 0)])
  {
    var server: Server<int> := (k: nat, f: bool) => Response(401, Envelope(None, None));
    assert PerformRequest(server(1, true)) == Failure(Api(Unauthorized));
    ExecuteStop(server, 3, true, 1);
    assert PerformRequest(server(0, false)) == Failure(Api(Unauthorized));
    ExecuteStep(server, 3, false, 0);
  }

  /** A stale cached token is recovered from: the forced refresh succeeds. */
  lemma StaleTokenRecovered(value: int)
    ensures var server: Server<int> := (k: nat, f: bool) =>
        if f then Response(200, Envelope(Some(value), None)) else Response(401, Envelope(None, None));
      Execute(server, DefaultMaxRetries) ==
        Run(Success(value), [Attempt(0, false, 0), Attempt(1, true, 0)])
  {
  }

  /** A successful status whose body does not decode fails at once and is never retried. */
  lemma DecodingErrorIsFinal<T>(server: Server<T>, maxRetries: int)
    requires server(0, false).Response? && 200 <= server(0, false).statusCode <= 299
    requires server(0, false).body.Undecodable?
    ensures Execute(server, maxRetries) ==
      Run(Failure(Api(DecodingError(server(0, false).body.reason))), [Attempt(0, false, 0)])
  {
  }

  /** A successful status whose body decodes with no errors and no data fails at once
      with `.noData` and is never retried. */
  lemma NoDataIsFinal<T>(server: Server<T>, maxRetries: int)
    requires server(0, false).Response? && 200 <= server(0, false).statusCode <= 299
    requires server(0, false).body.Envelope? && server(0, false).body.data.None?
    requires server(0, false).body.errors.None? || server(0, false).body.errors.value == []
    ensures Execute(server, maxRetries) == Run(Failure(Api(NoData)), [Attempt(0, false, 0)])
  {
  }

  /** A connection that keeps timing out is retried with back-off and rethrown as
      `.client`. */
  lemma PersistentTimeout(description: string)
    ensures var server: Server<int> := (k: nat, f: bool) => TransportFailure(UrlError(TimedOut, description));
      var run := Execute(server, DefaultMaxRetries);
      run.outcome == Failure(Api(Client(UrlError(TimedOut, description)))) && |run.attempts| == 4
  {
    var server: Server<int> := (k: nat, f: bool) => TransportFailure(UrlError(TimedOut, description));
    assert |ExecuteWithRetry(server, 3, false, 3).attempts| == 1;
    assert |ExecuteWithRetry(server, 3, false, 2).attempts| == 2;
    assert |ExecuteWithRetry(server, 3, false, 1).attempts| == 3;
  }
}
