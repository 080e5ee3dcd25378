/** `HttpClient.retryRequest`: repeat `makeRequest` while it fails with a
    retryable error and retries remain, waiting `1000 * k` ms before the
    k-th retry. The configuration is fixed for the whole call; the waits are
    recorded instead of slept. */
module Retry {
  import opened Wrappers
  import opened Host
  import opened ApiErrors
  import opened ClientConfig
  import opened Requests

  /** The settled promise, the number of `makeRequest` calls made, and the
      milliseconds passed to `delay` before each retry, in order. */
  datatype Run = Run(result: Result<Reply, ApiError>, attempts: nat, delays: seq<int>)

  /** A failure `shouldRetry` accepts. */
  predicate Retryable(r: Result<Reply, ApiError>) {
    r.Failure? && ShouldRetry(r.error)
  }

  /** How many retries a counter still allows (`retries > 0` guards each). */
  function Budget(retries: int): nat {
    if retries > 0 then retries else 0
  }

  /** `retryRequest(path, options, retries)`. The counter starts at
      `config.retries` and only goes down, so the attempt made with counter
      `retries` is attempt number `config.retries - retries`. */
  function RetryRequest(config: Settings, path: string, options: RequestOptions, retries: int,
                        transport: Transport, rt: Runtime): (run: Run)
    requires retries <= config.retries
    ensures 1 <= run.attempts <= Budget(retries) + 1
    ensures forall k: nat :: config.retries - retries <= k < config.retries - retries + run.attempts - 1
              ==> Retryable(MakeRequest(config, path, options, transport, k, rt))
    ensures run.result == MakeRequest(config, path, options, transport, config.retries - retries + run.attempts - 1, rt)
    ensures Retryable(run.result) ==> run.attempts == Budget(retries) + 1
    ensures |run.delays| == run.attempts - 1
    ensures forall i :: 0 <= i < |run.delays| ==> run.delays[i] == 1000 * (config.retries - retries + i + 1)
    decreases Budget(retries)
  {
    var attempt: nat := config.retries - retries;
    var result := MakeRequest(config, path, options, transport, attempt, rt);
    if retries > 0 && Retryable(result) then
      var rest := RetryRequest(config, path, options, retries - 1, transport, rt);
      Run(rest.result, rest.attempts + 1, [1000 * (config.retries - retries + 1)] + rest.delays)
    else
      Run(result, 1, [])
  }

  /** A whole call: `retryRequest` with its default counter. */
  function Send(config: Settings, path: string, options: RequestOptions,
                transport: Transport, rt: Runtime): (run: Run)
    ensures 1 <= run.attempts <= Budget(config.retries) + 1
    ensures forall k: nat :: k < run.attempts - 1 ==> Retryable(MakeRequest(config, path, options, transport, k, rt))
    ensures run.result == MakeRequest(config, path, options, transport, run.attempts - 1, rt)
    ensures Retryable(run.result) ==> run.attempts == Budget(config.retries) + 1
  {
    RetryRequest(config, path, options, config.retries, transport, rt)
  }

  /** With budget R a call makes at most R + 1 attempts, the k-th retry
      waits 1000 * k ms, and what it settles with is the last attempt's
      result, unchanged. */
  lemma SendAttemptsAndDelays(config: Settings, path: string, options: RequestOptions,
                              transport: Transport, rt: Runtime)
    ensures var run := Send(config, path, options, transport, rt);
      && 1 <= run.attempts <= Budget(config.retries) + 1
      && run.delays == seq(run.attempts - 1, i => 1000 * (i + 1))
      && run.result == MakeRequest(config, path, options, transport, run.attempts - 1, rt)
  {
    var run := Send(config, path, options, transport, rt);
    assert run.delays == seq(run.attempts - 1, i => 1000 * (i + 1));
  }

  /** A first attempt that succeeds, or fails with an error that is not
      retried (a 4xx, say), settles the call at once, with no wait. */
  lemma NotRetriedSettlesAtOnce(config: Settings, path: string, options: RequestOptions,
                                transport: Transport, rt: Runtime)
    requires !Retryable(MakeRequest(config, path, options, transport, 0, rt))
    ensures var run := Send(config, path, options, transport, rt);
            run.attempts == 1 && run.delays == [] && run.result == MakeRequest(config, path, options, transport, 0, rt)
  {
  }

  /** When every attempt fails with a retryable error, the call makes
      exactly R + 1 attempts and rethrows the last error as it was. */
  lemma ExhaustionRethrowsLastError(config: Settings, path: string, options: RequestOptions,
                                    transport: Transport, rt: Runtime)
    requires forall k: nat :: k <= Budget(config.retries) ==> Retryable(MakeRequest(config, path, options, transport, k, rt))
    ensures var run := Send(config, path, options, transport, rt);
            && run.attempts == Budget(config.retries) + 1
            && run.result == MakeRequest(config, path, options, transport, Budget(config.retries), rt)
  {
  }

  /** Transports that answer with a fixed status per attempt and an empty
      body. */
  function Statuses(first: int, second: int, rest: int): Transport {
    (k: nat, request: HttpRequest) =>
      if k == 0 then Responded(first, "") else if k == 1 then Responded(second, "") else Responded(rest, "")
  }

  /** 500, 500, then 200 with a budget of at least two: the third attempt's
      reply, after waits of 1 s and 2 s. (`JSON.parse("")` throws.) */
  lemma ServerErrorsThenSuccess(config: Settings, path: string, options: RequestOptions, rt: Runtime)
    requires config.retries >= 2 && rt.parseJson("").Failure?
    ensures var run := Send(config, path, options, Statuses(500, 500, 200), rt);
            run.result == Success(EmptyOk) && run.attempts == 3 && run.delays == [1000, 2000]
  {
    var transport := Statuses(500, 500, 200);
    var run := Send(config, path, options, transport, rt);
    assert Retryable(MakeRequest(config, path, options, transport, 0, rt));
    assert Retryable(MakeRequest(config, path, options, transport, 1, rt));
    assert MakeRequest(config, path, options, transport, 2, rt) == Success(EmptyOk);
  }

  /** A 404 is not retried: one attempt, no wait, the 404 error. */
  lemma ClientErrorNotRetried(config: Settings, path: string, options: RequestOptions, rt: Runtime)
    requires rt.parseJson("").Failure?
    ensures var run := Send(config, path, options, Statuses(404, 404, 404), rt);
            run.attempts == 1 && run.delays == [] && run.result.Failure? && run.result.error.status == 404
  {
    var transport := Statuses(404, 404, 404);
    assert MakeRequest(config, path, options, transport, 0, rt).error.status == 404;
  }

  /** Four 500s with the default budget of 3: four attempts, waits of 1, 2
      and 3 s, and the fourth 500 rethrown. */
  lemma ServerErrorsExhaustBudget(config: Settings, path: string, options: RequestOptions, rt: Runtime)
    requires config.retries == 3 && rt.parseJson("").Failure?
    ensures var run := Send(config, path, options, Statuses(500, 500, 500), rt);
            && run.attempts == 4 && run.delays == [1000, 2000, 3000]
            && run.result == MakeRequest(config, path, options, Statuses(500, 500, 500), 3, rt)
            && run.result.Failure? && run.result.error.status == 500
  {
    var transport := Statuses(500, 500, 500);
    forall k: nat | k <= 3 ensures Retryable(MakeRequest(config, path, options, transport, k, rt)) {
      assert MakeRequest(config, path, options, transport, k, rt).error.status == 500;
    }
    ExhaustionRethrowsLastError(config, path, options, transport, rt);
    SendAttemptsAndDelays(config, path, options, transport, rt);
  }
}
