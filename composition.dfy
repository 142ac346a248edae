/**
 * A tool decorated with `@rate_limit(...)` over `@cache_mcp_result(...)`:
 * the rate limiter's check runs first, so every admitted call spends tokens
 * whether or not the cache then answers it, and a refused call neither runs
 * the tool nor touches the cache.
 */
module Composition {
  import opened Common
  import opened Errors
  import opened Cache
  import opened RateLimit

  /** One call of a tool: its name, arguments, cache lifetime and the tool itself. */
  datatype Call<!A(==), R> = Call(
    funcName: string, args: seq<A>, kwargs: seq<(string, A)>, ttl: Option<int>,
    tool: (seq<A>, map<string, A>) -> Outcome<Option<R>, Exception>)

  /** Whether the bucket admitted the call, the bucket afterwards, and the cached call's step. */
  datatype LimitedStep<R, A(==)> = LimitedStep(granted: bool, bucket: Bucket, step: CachedStep<R, Exception, A>)

  /** The call through both wrappers: an acquire on the bucket at `now`; if
      refused, the rejection is raised and the cache is left as it was; if
      admitted, the call goes through the cache. */
  function LimitedCachedSpec<A(==), R>(
    b: Bucket, rate: real, capacity: real, rejection: Exception, n: int,
    entries: map<CacheKey<A>, Entry<Option<R>>>, defaultTtl: int,
    call: Call<A, R>, now: real, finishedAt: real): LimitedStep<R, A>
  {
    var acquired := AcquireStep(b, rate, capacity, n, now);
    if acquired.granted then
      LimitedStep(true, acquired.bucket,
        CachedCallSpec(entries, defaultTtl, call.funcName, call.args, call.kwargs, call.ttl, now, finishedAt, call.tool))
    else
      LimitedStep(false, acquired.bucket, CachedStep(Raised(rejection), false, entries))
  }

  /** `@rate_limit(tool_name, tokens)` stacked over `@cache_mcp_result(ttl)`. */
  method LimitedCachedCall<A(==), R>(
    limiter: RateLimiter, cache: TtlCache<CacheKey<A>, Option<R>>,
    toolName: Option<string>, n: int, call: Call<A, R>, now: real, finishedAt: real)
    returns (outcome: Outcome<Option<R>, Exception>, called: bool)
    requires limiter.Valid()
    modifies cache, limiter.Resolve(ActualTool(toolName, call.funcName))
    ensures limiter.Valid()
    ensures var bucket := limiter.Resolve(ActualTool(toolName, call.funcName));
      var spec := LimitedCachedSpec(old(bucket.State()), bucket.rate, bucket.capacity,
          Rejection(limiter.toolLimits, ActualTool(toolName, call.funcName)), n,
          old(cache.entries), cache.ttlSeconds, call, now, finishedAt);
      && bucket.State() == spec.bucket
      && CachedStep(outcome, called, cache.entries) == spec.step
  {
    var refusal := RateLimitGate(limiter, toolName, call.funcName, n, now);
    if refusal.Some? {
      return Raised(refusal.value), false;
    }
    outcome, called := CachedCall(cache, call.funcName, call.args, call.kwargs, call.ttl, now, finishedAt, call.tool);
  }

  /** An admitted call spends `n` of the refilled tokens whether the cache
      answers it or the tool runs; a refused call runs nothing, leaves the
      cache as it was and raises the rejection. */
  lemma AdmittedCallsSpendTokens<A, R>(
    b: Bucket, rate: real, capacity: real, rejection: Exception, n: int,
    entries: map<CacheKey<A>, Entry<Option<R>>>, defaultTtl: int,
    call: Call<A, R>, now: real, finishedAt: real)
    ensures var refilled := Refill(b, rate, capacity, now);
      var r := LimitedCachedSpec(b, rate, capacity, rejection, n, entries, defaultTtl, call, now, finishedAt);
      && (r.granted <==> refilled.tokens >= n as real)
      && (r.granted ==> r.bucket.tokens == refilled.tokens - n as real)
      && (!r.granted ==> r.bucket == refilled && r.step == CachedStep(Raised(rejection), false, entries))
  {
  }

  /** Three calls of a tool without a limit of its own (so on the shared
      "default" bucket of rate 10 and burst 20, full at `t0`) and with a
      one-second cache lifetime, the third made after the stored value has
      expired: all three are admitted; the first and third run the tool and
      the second is answered from the cache. */
  lemma ThreeCallsThroughBothWrappers<A>(
    call: Call<A, string>, defaultTtl: int, rejection: Exception,
    t0: real, t1: real, f1: real, t2: real, f2: real, t3: real, f3: real)
    requires call.ttl == Some(1)
    requires call.tool(call.args, KwargsMap(call.kwargs)) == Returned(Some("success"))
    requires t0 <= t1 <= f1 <= t2 <= f2 <= t3 && t2 <= f1 + 1.0 < t3
    ensures var r1 := LimitedCachedSpec(Bucket(20.0, t0), 10.0, 20.0, rejection, 1, map[], defaultTtl, call, t1, f1);
      var r2 := LimitedCachedSpec(r1.bucket, 10.0, 20.0, rejection, 1, r1.step.entries, defaultTtl, call, t2, f2);
      var r3 := LimitedCachedSpec(r2.bucket, 10.0, 20.0, rejection, 1, r2.step.entries, defaultTtl, call, t3, f3);
      && r1.granted && r1.step.called && r1.step.outcome == Returned(Some("success"))
      && r2.granted && !r2.step.called && r2.step.outcome == Returned(Some("success"))
      && r3.granted && r3.step.called && r3.step.outcome == Returned(Some("success"))
  {
    var b0 := Bucket(20.0, t0);
    EnoughTokensIsGranted(b0, 10.0, 20.0, 1, t1);
    var a1 := AcquireStep(b0, 10.0, 20.0, 1, t1);
    EnoughTokensIsGranted(a1.bucket, 10.0, 20.0, 1, t2);
    var a2 := AcquireStep(a1.bucket, 10.0, 20.0, 1, t2);
    EnoughTokensIsGranted(a2.bucket, 10.0, 20.0, 1, t3);

    var key := GenerateKey(call.funcName, call.args, call.kwargs);
    var first := CachedCallSpec(map[], defaultTtl, call.funcName, call.args, call.kwargs, call.ttl, t1, f1, call.tool);
    assert first.called && first.outcome == Returned(Some("success"));
    ValueIsServedUntilExpiry(map[], defaultTtl, call.funcName, call.args, call.kwargs, call.ttl, t1, f1, t2, f2, call.tool);
    assert first.entries == map[key := Entry(Some("success"), f1 + 1.0)];
    var third := CachedCallSpec(first.entries, defaultTtl, call.funcName, call.args, call.kwargs, call.ttl, t3, f3, call.tool);
    assert Lookup(first.entries, key, t3).None?;
  }
}
