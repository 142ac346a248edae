/**
 * Token-bucket rate limiting of the MCP tools: a bucket per configured tool
 * that refills continuously at its rate up to its burst capacity, the limiter
 * that picks a tool's bucket (or the shared "default" one), and the wrapper
 * that refuses a call with an `MCPRateLimitError` before the tool runs.
 * Wall-clock time is the parameter `now`, in seconds.
 */
module RateLimit {
  import opened Common
  import opened Errors

  // ---------------------------------------------------------------- the bucket, as values

  /** The mutable part of a `TokenBucket`: its tokens and the time they were counted. */
  datatype Bucket = Bucket(tokens: real, lastUpdate: real)

  /** The bucket invariant: tokens never go negative and never exceed the capacity. */
  predicate InBounds(b: Bucket, capacity: real) {
    0.0 <= b.tokens <= capacity
  }

  lemma MulNonNegative(x: real, y: real)
    requires x >= 0.0 && y >= 0.0
    ensures x * y >= 0.0
  {
  }

  lemma MulMonotone(x: real, y: real, rate: real)
    requires x >= y && rate >= 0.0
    ensures x * rate >= y * rate
  {
    MulNonNegative(x - y, rate);
  }

  /** The tokens `rate` earns from `from` to `to`. */
  function Earned(rate: real, from: real, to: real): real {
    (to - from) * rate
  }

  /** `_add_tokens` at time `now`: the tokens earned since the last update
      are added, capped at the capacity, and the clock moves to `now`. */
  function Refill(b: Bucket, rate: real, capacity: real, now: real): Bucket {
    Bucket(MinReal(capacity, b.tokens + Earned(rate, b.lastUpdate, now)), now)
  }

  /** With a clock that does not run backwards, refilling keeps the bucket in
      bounds and never loses tokens. */
  lemma RefillKeepsBounds(b: Bucket, rate: real, capacity: real, now: real)
    requires InBounds(b, capacity) && rate >= 0.0 && now >= b.lastUpdate
    ensures InBounds(Refill(b, rate, capacity, now), capacity)
    ensures Refill(b, rate, capacity, now).tokens >= b.tokens
  {
    MulNonNegative(now - b.lastUpdate, rate);
    var topped := b.tokens + Earned(rate, b.lastUpdate, now);
    assert topped >= b.tokens;
    assert Refill(b, rate, capacity, now).tokens == MinReal(capacity, topped);
  }

  /** Whether an acquire was granted, and the bucket afterwards. */
  datatype Acquired = Acquired(granted: bool, bucket: Bucket)

  /** `acquire(n)` at time `now`: refill, then take `n` tokens if there are
      that many, and otherwise take nothing. */
  function AcquireStep(b: Bucket, rate: real, capacity: real, n: int, now: real): (r: Acquired)
    ensures r.bucket.lastUpdate == now
  {
    var refilled := Refill(b, rate, capacity, now);
    if refilled.tokens >= n as real then
      Acquired(true, Bucket(refilled.tokens - n as real, now))
    else
      Acquired(false, refilled)
  }

  /** A granted acquire takes exactly `n` of the refilled tokens and a refused
      one takes none; with `n >= 0` and a monotone clock the bucket stays in
      bounds, and a refused acquire never leaves fewer tokens than before. */
  lemma AcquireKeepsBounds(b: Bucket, rate: real, capacity: real, n: int, now: real)
    requires InBounds(b, capacity) && rate >= 0.0 && now >= b.lastUpdate && n >= 0
    ensures var r := AcquireStep(b, rate, capacity, n, now);
      var refilled := Refill(b, rate, capacity, now).tokens;
      && (r.granted <==> refilled >= n as real)
      && (r.granted ==> r.bucket.tokens == refilled - n as real)
      && (!r.granted ==> r.bucket.tokens == refilled && r.bucket.tokens >= b.tokens)
      && InBounds(r.bucket, capacity)
  {
    RefillKeepsBounds(b, rate, capacity, now);
  }

  /** An acquire of no more than the tokens already there is granted, and
      leaves at least the rest of them. */
  lemma EnoughTokensIsGranted(b: Bucket, rate: real, capacity: real, n: int, now: real)
    requires InBounds(b, capacity) && rate >= 0.0 && now >= b.lastUpdate && 0 <= n && n as real <= b.tokens
    ensures var r := AcquireStep(b, rate, capacity, n, now);
      r.granted && r.bucket.tokens >= b.tokens - n as real && InBounds(r.bucket, capacity)
  {
    RefillKeepsBounds(b, rate, capacity, now);
    AcquireKeepsBounds(b, rate, capacity, n, now);
  }

  /** Waiting `(n - tokens) / rate` seconds after the last update is enough
      for an acquire of `n <= capacity` tokens to be granted. */
  lemma WaitingIsEnough(b: Bucket, rate: real, capacity: real, n: int, now: real)
    requires rate > 0.0 && n as real <= capacity
    requires now >= b.lastUpdate + (n as real - b.tokens) / rate
    ensures AcquireStep(b, rate, capacity, n, now).granted
  {
    var needed := (n as real - b.tokens) / rate;
    MulMonotone(now - b.lastUpdate, needed, rate);
    assert needed * rate == n as real - b.tokens;
  }

  // ---------------------------------------------------------------- sequences of requests

  /** An acquire of `tokens` tokens at time `at`. */
  datatype Request = Request(at: real, tokens: int)

  /** The bucket after a sequence of acquires, and which of them were granted. */
  datatype Run = Run(final: Bucket, granted: seq<bool>)

  function Replay(b: Bucket, rate: real, capacity: real, reqs: seq<Request>): (r: Run)
    ensures |r.granted| == |reqs|
    ensures r.final.lastUpdate == EndTime(b.lastUpdate, reqs)
    decreases |reqs|
  {
    if |reqs| == 0 then Run(b, [])
    else
      var step := AcquireStep(b, rate, capacity, reqs[0].tokens, reqs[0].at);
      var rest := Replay(step.bucket, rate, capacity, reqs[1..]);
      Run(rest.final, [step.granted] + rest.granted)
  }

  /** The total of the tokens handed out to the granted requests. */
  function GrantedTokens(reqs: seq<Request>, granted: seq<bool>): int
    requires |granted| == |reqs|
  {
    if |reqs| == 0 then 0
    else (if granted[0] then reqs[0].tokens else 0) + GrantedTokens(reqs[1..], granted[1..])
  }

  /** The requests come at non-decreasing times, none before `start`. */
  predicate Chronological(start: real, reqs: seq<Request>)
    decreases |reqs|
  {
    |reqs| == 0 || (start <= reqs[0].at && Chronological(reqs[0].at, reqs[1..]))
  }

  /** The time of the last request, or `start` when there is none. */
  function EndTime(start: real, reqs: seq<Request>): real {
    if |reqs| == 0 then start else reqs[|reqs| - 1].at
  }

  /** One acquire hands out no more than the tokens it found plus those earned since. */
  lemma StepWithinBudget(b: Bucket, rate: real, capacity: real, n: int, now: real)
    ensures var step := AcquireStep(b, rate, capacity, n, now);
      step.bucket.tokens + (if step.granted then n else 0) as real <= b.tokens + Earned(rate, b.lastUpdate, now)
  {
  }

  /** The tokens the rate earns between consecutive requests, summed. */
  function EarnedAlong(rate: real, start: real, reqs: seq<Request>): real
    decreases |reqs|
  {
    if |reqs| == 0 then 0.0 else Earned(rate, start, reqs[0].at) + EarnedAlong(rate, reqs[0].at, reqs[1..])
  }

  /** What is earned between consecutive requests adds up to what is earned
      between the start and the last request. */
  lemma {:induction false} EarnedAlongTelescopes(rate: real, start: real, reqs: seq<Request>)
    ensures EarnedAlong(rate, start, reqs) == rate * (EndTime(start, reqs) - start)
    decreases |reqs|
  {
    if |reqs| > 0 {
      var t0 := reqs[0].at;
      EarnedAlongTelescopes(rate, t0, reqs[1..]);
      assert EndTime(t0, reqs[1..]) == EndTime(start, reqs);
      assert (t0 - start) * rate + rate * (EndTime(start, reqs) - t0) == rate * (EndTime(start, reqs) - start);
    }
  }

  /** A run is its first acquire followed by the run of the rest. */
  lemma ReplayUnfold(b: Bucket, rate: real, capacity: real, reqs: seq<Request>)
    requires |reqs| > 0
    ensures var step := AcquireStep(b, rate, capacity, reqs[0].tokens, reqs[0].at);
      var rest := Replay(step.bucket, rate, capacity, reqs[1..]);
      var run := Replay(b, rate, capacity, reqs);
      && run.final == rest.final
      && GrantedTokens(reqs, run.granted) == (if step.granted then reqs[0].tokens else 0) + GrantedTokens(reqs[1..], rest.granted)
  {
    var step := AcquireStep(b, rate, capacity, reqs[0].tokens, reqs[0].at);
    var run := Replay(b, rate, capacity, reqs);
    assert run.granted[1..] == Replay(step.bucket, rate, capacity, reqs[1..]).granted;
  }

  /** What is earned along requests is what is earned up to the first one
      plus what is earned along the rest, counted from `mid`, the first one's time. */
  lemma EarnedAlongUnfold(rate: real, start: real, reqs: seq<Request>, mid: real)
    requires |reqs| > 0 && mid == reqs[0].at
    ensures EarnedAlong(rate, start, reqs) == Earned(rate, start, reqs[0].at) + EarnedAlong(rate, mid, reqs[1..])
  {
  }

  /** The arithmetic that chains one acquire onto the rest of a run. */
  lemma BudgetAdds(final: real, restFinal: real, granted: real, first: real, restGranted: real,
                   mid: real, start: real, earned: real, firstEarned: real, restEarned: real)
    requires final == restFinal
    requires granted == first + restGranted
    requires earned == firstEarned + restEarned
    requires restFinal + restGranted <= mid + restEarned
    requires mid + first <= start + firstEarned
    ensures final + granted <= start + earned
  {
  }

  /** With a monotone clock and no negative requests, the bucket stays in
      bounds through any sequence of acquires. */
  lemma {:induction false} ReplayKeepsBounds(b: Bucket, rate: real, capacity: real, reqs: seq<Request>)
    requires InBounds(b, capacity) && rate >= 0.0
    requires forall i :: 0 <= i < |reqs| ==> reqs[i].tokens >= 0
    requires Chronological(b.lastUpdate, reqs)
    ensures InBounds(Replay(b, rate, capacity, reqs).final, capacity)
    decreases |reqs|
  {
    if |reqs| > 0 {
      var step := AcquireStep(b, rate, capacity, reqs[0].tokens, reqs[0].at);
      AcquireKeepsBounds(b, rate, capacity, reqs[0].tokens, reqs[0].at);
      ReplayKeepsBounds(step.bucket, rate, capacity, reqs[1..]);
    }
  }

  /** Over any sequence of acquires, the tokens handed out plus those left
      never exceed the tokens at the start plus `rate` per second between
      the last update and the last request. */
  lemma {:induction false} ReplayWithinBudget(b: Bucket, rate: real, capacity: real, reqs: seq<Request>)
    ensures var run := Replay(b, rate, capacity, reqs);
      run.final.tokens + GrantedTokens(reqs, run.granted) as real <= b.tokens + EarnedAlong(rate, b.lastUpdate, reqs)
    decreases |reqs|
  {
    if |reqs| > 0 {
      var t0 := reqs[0].at;
      var step := AcquireStep(b, rate, capacity, reqs[0].tokens, t0);
      var first := if step.granted then reqs[0].tokens else 0;
      var rest := Replay(step.bucket, rate, capacity, reqs[1..]);
      var run := Replay(b, rate, capacity, reqs);
      StepWithinBudget(b, rate, capacity, reqs[0].tokens, t0);
      ReplayWithinBudget(step.bucket, rate, capacity, reqs[1..]);
      ReplayUnfold(b, rate, capacity, reqs);
      EarnedAlongUnfold(rate, b.lastUpdate, reqs, step.bucket.lastUpdate);
      BudgetAdds(run.final.tokens, rest.final.tokens,
        GrantedTokens(reqs, run.granted) as real, first as real, GrantedTokens(reqs[1..], rest.granted) as real,
        step.bucket.tokens, b.tokens,
        EarnedAlong(rate, b.lastUpdate, reqs), Earned(rate, b.lastUpdate, t0), EarnedAlong(rate, step.bucket.lastUpdate, reqs[1..]));
    }
  }

  /** The same bound with the earnings of the whole stretch of time written out. */
  lemma ReplayWithinRate(b: Bucket, rate: real, capacity: real, reqs: seq<Request>)
    ensures var run := Replay(b, rate, capacity, reqs);
      run.final.tokens + GrantedTokens(reqs, run.granted) as real
        <= b.tokens + rate * (EndTime(b.lastUpdate, reqs) - b.lastUpdate)
  {
    ReplayWithinBudget(b, rate, capacity, reqs);
    EarnedAlongTelescopes(rate, b.lastUpdate, reqs);
  }

  /** Hence no stretch of time grants more than the burst capacity plus what
      the rate earns in it. */
  lemma GrantedWithinBurstAndRate(b: Bucket, rate: real, capacity: real, reqs: seq<Request>)
    requires InBounds(b, capacity) && rate >= 0.0
    requires forall i :: 0 <= i < |reqs| ==> reqs[i].tokens >= 0
    requires Chronological(b.lastUpdate, reqs)
    ensures GrantedTokens(reqs, Replay(b, rate, capacity, reqs).granted) as real
      <= capacity + rate * (EndTime(b.lastUpdate, reqs) - b.lastUpdate)
  {
    ReplayKeepsBounds(b, rate, capacity, reqs);
    ReplayWithinRate(b, rate, capacity, reqs);
  }

  /** `k` acquires of one token each, all at time `at`. */
  function UnitRequests(at: real, k: nat): (r: seq<Request>)
    ensures |r| == k && forall i :: 0 <= i < k ==> r[i] == Request(at, 1)
  {
    if k == 0 then [] else [Request(at, 1)] + UnitRequests(at, k - 1)
  }

  /** A single-token acquire at the instant of the last update earns nothing:
      it takes one token if there is one and otherwise leaves the bucket as it is. */
  lemma AcquireAtLastUpdate(b: Bucket, rate: real, capacity: real)
    requires b.tokens <= capacity
    ensures AcquireStep(b, rate, capacity, 1, b.lastUpdate) ==
      if b.tokens >= 1.0 then Acquired(true, Bucket(b.tokens - 1.0, b.lastUpdate)) else Acquired(false, b)
  {
    assert Earned(rate, b.lastUpdate, b.lastUpdate) == 0.0;
  }

  /** A burst of single-token acquires at the instant of the last update:
      the `i`-th (from 0) is granted exactly when the bucket held at least
      `i + 1` tokens. */
  lemma {:induction false} BurstAtOneInstant(b: Bucket, rate: real, capacity: real, k: nat)
    requires b.tokens <= capacity
    ensures forall i :: 0 <= i < k ==>
      (Replay(b, rate, capacity, UnitRequests(b.lastUpdate, k)).granted[i] <==> b.tokens >= (i + 1) as real)
    decreases k
  {
    if k > 0 {
      var reqs := UnitRequests(b.lastUpdate, k);
      assert reqs[1..] == UnitRequests(b.lastUpdate, k - 1);
      AcquireAtLastUpdate(b, rate, capacity);
      var step := AcquireStep(b, rate, capacity, 1, b.lastUpdate);
      var nb := step.bucket;
      assert nb.tokens <= capacity;
      BurstAtOneInstant(nb, rate, capacity, k - 1);
      assert step.bucket.lastUpdate == b.lastUpdate;
      var rest := Replay(step.bucket, rate, capacity, UnitRequests(step.bucket.lastUpdate, k - 1));
      var run := Replay(b, rate, capacity, reqs);
      assert run.granted == [step.granted] + rest.granted;
      forall i | 1 <= i < k
        ensures run.granted[i] <==> b.tokens >= (i + 1) as real
      {
        assert run.granted[i] == rest.granted[i - 1];
        var j := i - 1;
        assert 0 <= j < k - 1;
        assert rest.granted[j] <==> step.bucket.tokens >= (j + 1) as real;
        if step.granted {
          assert step.bucket.tokens == b.tokens - 1.0;
        } else {
          assert step.bucket.tokens == b.tokens && b.tokens < 1.0;
        }
      }
    }
  }

  lemma {:induction false} UnitRequestsChronological(at: real, k: nat)
    ensures Chronological(at, UnitRequests(at, k))
  {
    if k > 0 {
      UnitRequestsChronological(at, k - 1);
    }
  }

  /** A new bucket of rate 1 and capacity 2 grants two acquires made at once
      and refuses a third, and grants again 1.1 seconds later. */
  lemma NewBucketBurst(t: real)
    ensures var run := Replay(Bucket(2.0, t), 1.0, 2.0, UnitRequests(t, 3));
      && run.granted == [true, true, false]
      && AcquireStep(run.final, 1.0, 2.0, 1, t + 1.1).granted
  {
    var reqs := UnitRequests(t, 3);
    BurstAtOneInstant(Bucket(2.0, t), 1.0, 2.0, 3);
    UnitRequestsChronological(t, 3);
    ReplayKeepsBounds(Bucket(2.0, t), 1.0, 2.0, reqs);
    var run := Replay(Bucket(2.0, t), 1.0, 2.0, reqs);
    WaitingIsEnough(run.final, 1.0, 2.0, 1, t + 1.1);
  }

  // ---------------------------------------------------------------- the bucket, as an object

  /** `TokenBucket` */
  class TokenBucket {
    const rate: real
    const capacity: real
    var tokens: real
    var lastUpdate: real

    function State(): Bucket
      reads this
    {
      Bucket(tokens, lastUpdate)
    }

    /** A bucket created at `now` starts full. */
    constructor (rate: real, capacity: real, now: real)
      ensures this.rate == rate && this.capacity == capacity
      ensures State() == Bucket(capacity, now)
    {
      this.rate := rate;
      this.capacity := capacity;
      tokens := capacity;
      lastUpdate := now;
    }

    /** `_add_tokens` */
    method AddTokens(now: real)
      modifies this
      ensures State() == Refill(old(State()), rate, capacity, now)
    {
      var elapsed := now - lastUpdate;
      var newTokens := elapsed * rate;
      tokens := MinReal(capacity, tokens + newTokens);
      lastUpdate := now;
    }

    /** `acquire` */
    method Acquire(n: int, now: real) returns (granted: bool)
      modifies this
      ensures Acquired(granted, State()) == AcquireStep(old(State()), rate, capacity, n, now)
    {
      AddTokens(now);
      if tokens >= n as real {
        tokens := tokens - n as real;
        return true;
      }
      return false;
    }
  }

  // ---------------------------------------------------------------- the limiter

  /** Requests per second and burst size. */
  datatype Limit = Limit(rate: real, capacity: real)

  /** The tokens `check_rate_limit` and `rate_limit` take when none are
      given; callers pass it as `n`. */
  const DefaultTokens: int := 1

  const DefaultTool: string := "default"

  const DefaultLimits: map<string, Limit> := map[
    "search_medication_price" := Limit(5.0, 10.0),
    "find_generic_alternatives" := Limit(2.0, 5.0),
    "find_pharmacies" := Limit(2.0, 5.0),
    "compare_prices" := Limit(1.0, 3.0),
    DefaultTool := Limit(10.0, 20.0)
  ]

  /** `RateLimiter` */
  class RateLimiter {
    var toolLimits: map<string, Limit>
    var limiters: map<string, TokenBucket>

    /** One bucket per configured limit, "default" among them, each built
        from its limit, and no bucket shared between two names. */
    ghost predicate Valid()
      reads this
    {
      && DefaultTool in limiters
      && limiters.Keys == toolLimits.Keys
      && (forall t :: t in limiters ==>
            limiters[t].rate == toolLimits[t].rate && limiters[t].capacity == toolLimits[t].capacity)
      && (forall t, u :: t in limiters && u in limiters && t != u ==> limiters[t] != limiters[u])
    }

    /** Creates a full bucket for every configured tool at time `now` (the
        order in which they are created makes no difference). */
    constructor (now: real)
      ensures Valid() && toolLimits == DefaultLimits
      ensures forall t :: t in limiters ==> fresh(limiters[t]) && limiters[t].State() == Bucket(limiters[t].capacity, now)
    {
      var buckets: map<string, TokenBucket> := map[];
      var pending := DefaultLimits.Keys;
      while pending != {}
        invariant pending <= DefaultLimits.Keys
        invariant buckets.Keys == DefaultLimits.Keys - pending
        invariant forall t :: t in buckets ==>
          && fresh(buckets[t])
          && buckets[t].rate == DefaultLimits[t].rate && buckets[t].capacity == DefaultLimits[t].capacity
          && buckets[t].State() == Bucket(buckets[t].capacity, now)
        invariant forall t, u :: t in buckets && u in buckets && t != u ==> buckets[t] != buckets[u]
        decreases pending
      {
        var tool :| tool in pending;
        var limit := DefaultLimits[tool];
        var bucket := new TokenBucket(limit.rate, limit.capacity, now);
        buckets := buckets[tool := bucket];
        pending := pending - {tool};
      }
      toolLimits := DefaultLimits;
      limiters := buckets;
    }

    /** The bucket `check_rate_limit` draws on: the tool's own, or the
        shared "default" one for a tool without its own. */
    function Resolve(tool: string): (b: TokenBucket)
      reads this
      requires Valid()
      ensures b in limiters.Values
      ensures tool in limiters ==> b == limiters[tool]
      ensures tool !in limiters ==> b == limiters[DefaultTool]
    {
      if tool in limiters then limiters[tool] else limiters[DefaultTool]
    }

    /** `check_rate_limit`: an acquire on the tool's bucket; every other
        bucket is left alone. */
    method CheckRateLimit(tool: string, n: int, now: real) returns (granted: bool)
      requires Valid()
      modifies Resolve(tool)
      ensures Valid()
      ensures Acquired(granted, Resolve(tool).State()) ==
        AcquireStep(old(Resolve(tool).State()), Resolve(tool).rate, Resolve(tool).capacity, n, now)
      ensures forall t :: t in limiters && limiters[t] != Resolve(tool) ==> limiters[t].State() == old(limiters[t].State())
    {
      var bucket := if tool in limiters then limiters[tool] else limiters[DefaultTool];
      granted := bucket.Acquire(n, now);
    }
  }

  /** Two tools without a bucket of their own draw on the same one. */
  lemma UnconfiguredToolsShareDefault(limiter: RateLimiter, t: string, u: string)
    requires limiter.Valid() && t !in limiter.limiters && u !in limiter.limiters
    ensures limiter.Resolve(t) == limiter.Resolve(u) == limiter.limiters[DefaultTool]
    ensures limiter.Resolve(t).rate == 10.0 && limiter.Resolve(t).capacity == 20.0 <==>
      limiter.toolLimits[DefaultTool] == Limit(10.0, 20.0)
    ensures limiter.toolLimits == DefaultLimits ==>
      limiter.Resolve(t).rate == 10.0 && limiter.Resolve(t).capacity == 20.0
  {
  }

  /** A full "default" bucket grants three single-token acquires made at once,
      so a tool without its own limit is not refused on its third call. */
  lemma DefaultBucketGrantsThird(t: real)
    ensures Replay(Bucket(20.0, t), 10.0, 20.0, UnitRequests(t, 3)).granted == [true, true, true]
  {
    BurstAtOneInstant(Bucket(20.0, t), 10.0, 20.0, 3);
  }

  // ---------------------------------------------------------------- the retry hint

  /** The integer nearest to `y`, ties going to the even one (the rounding
      of Python's fixed-point formatting). */
  function RoundHalfEven(y: real): (n: int)
    ensures -0.5 <= n as real - y <= 0.5
    ensures (n as real - y == 0.5 || y - n as real == 0.5) ==> n % 2 == 0
  {
    var f := y.Floor;
    var d := y - f as real;
    if d < 0.5 then f else if d > 0.5 then f + 1 else if f % 2 == 0 then f else f + 1
  }

  /** Those two properties pin the rounding down: any integer within a half
      of `y`, and even on a tie, is `RoundHalfEven(y)`. */
  lemma RoundHalfEvenUnique(y: real, m: int)
    requires -0.5 <= m as real - y <= 0.5
    requires (m as real - y == 0.5 || y - m as real == 0.5) ==> m % 2 == 0
    ensures m == RoundHalfEven(y)
  {
  }

  function DigitChar(d: int): char
    requires 0 <= d < 10
  {
    ['0', '1', '2', '3', '4', '5', '6', '7', '8', '9'][d]
  }

  function DigitValue(c: char): int {
    c as int - '0' as int
  }

  /** The decimal digits of `n`, without leading zeros. */
  function NatToString(n: nat): (s: string)
    ensures |s| > 0 && forall i :: 0 <= i < |s| ==> '0' <= s[i] <= '9'
    ensures n > 0 ==> s[0] != '0'
  {
    if n < 10 then [DigitChar(n)] else NatToString(n / 10) + [DigitChar(n % 10)]
  }

  /** The value of a string of decimal digits. */
  function ParseNat(s: string): int {
    if |s| == 0 then 0 else 10 * ParseNat(s[..|s| - 1]) + DigitValue(s[|s| - 1])
  }

  lemma {:induction false} ParseNatToString(n: nat)
    ensures ParseNat(NatToString(n)) == n
  {
    var s := NatToString(n);
    if n >= 10 {
      ParseNatToString(n / 10);
      assert s[..|s| - 1] == NatToString(n / 10);
    }
  }

  /** `f"{x:.1f}"` of a non-negative number: whole part, point, tenths digit. */
  function UnsignedTenths(x: real): (s: string)
    requires x >= 0.0
  {
    var n := RoundHalfEven(x * 10.0);
    NatToString(n / 10) + "." + [DigitChar(n % 10)]
  }

  /** `f"{x:.1f}"` */
  function FormatTenths(x: real): (s: string)
    ensures |s| >= 3 && (x < 0.0 <==> s[0] == '-')
  {
    if x < 0.0 then
      UnsignedTenthsStartsWithDigit(-x);
      "-" + UnsignedTenths(-x)
    else
      UnsignedTenthsStartsWithDigit(x);
      UnsignedTenths(x)
  }

  /** The value written by `UnsignedTenths`: digits, a point, one digit. */
  function TenthsValue(s: string): real
    requires |s| >= 2
  {
    ParseNat(s[..|s| - 2]) as real + DigitValue(s[|s| - 1]) as real / 10.0
  }

  /** The formatted hint reads back as `x` rounded half-to-even to tenths,
      which is within a twentieth of `x`. */
  lemma UnsignedTenthsValue(x: real)
    requires x >= 0.0
    ensures |UnsignedTenths(x)| >= 3 && UnsignedTenths(x)[|UnsignedTenths(x)| - 2] == '.'
    ensures TenthsValue(UnsignedTenths(x)) == RoundHalfEven(x * 10.0) as real / 10.0
    ensures -0.05 <= TenthsValue(UnsignedTenths(x)) - x <= 0.05
  {
    var n := RoundHalfEven(x * 10.0);
    var s := UnsignedTenths(x);
    var whole := NatToString(n / 10);
    assert s[..|s| - 2] == whole;
    ParseNatToString(n / 10);
    var d := n % 10;
    assert DigitValue(DigitChar(d)) == d;
    assert (n / 10) as real + d as real / 10.0 == n as real / 10.0;
  }

  /** The text of a non-negative number starts with a digit. */
  lemma UnsignedTenthsStartsWithDigit(x: real)
    requires x >= 0.0
    ensures |UnsignedTenths(x)| >= 3 && '0' <= UnsignedTenths(x)[0] <= '9'
  {
    var whole := NatToString(RoundHalfEven(x * 10.0) / 10);
    assert UnsignedTenths(x)[0] == whole[0];
  }

  /** `f"{x:.1f}"` of a non-negative number has no sign and reads back as
      the number rounded half-to-even to tenths... */
  lemma FormatNonNegativeTenths(x: real)
    requires x >= 0.0
    ensures var s := FormatTenths(x);
      && |s| >= 3 && s[0] != '-'
      && TenthsValue(s) == RoundHalfEven(x * 10.0) as real / 10.0
  {
    UnsignedTenthsValue(x);
    UnsignedTenthsStartsWithDigit(x);
  }

  /** ...and that of a negative number `-y` is a minus sign followed by the
      text of `y`. */
  lemma FormatNegativeTenths(y: real)
    requires y > 0.0
    ensures var s := FormatTenths(-y);
      && |s| >= 4 && s[0] == '-'
      && s[1..] == UnsignedTenths(y)
      && TenthsValue(s[1..]) == RoundHalfEven(y * 10.0) as real / 10.0
  {
    var u := UnsignedTenths(y);
    UnsignedTenthsValue(y);
    assert -(-y) == y;
    var s := FormatTenths(-y);
    assert s == "-" + u;
    assert s[1..] == u;
  }

  /** One second is written "1.0". */
  lemma OneSecondText()
    ensures FormatTenths(1.0) == "1.0"
  {
    assert RoundHalfEven(10.0) == 10;
    assert NatToString(1) == "1";
  }

  /** The rate quoted in the hint: the tool's configured rate, or 1 for a
      tool without a configured limit, whatever bucket that tool draws on. */
  function HintRate(toolLimits: map<string, Limit>, tool: string): real {
    if tool in toolLimits then toolLimits[tool].rate else 1.0
  }

  const FloatDivisionByZero: string := "float division by zero"

  /** `1.0 / rate`, which raises for a zero rate. */
  function RetryAfter(toolLimits: map<string, Limit>, tool: string): (r: Outcome<real, Exception>)
    ensures r.Raised? <==> HintRate(toolLimits, tool) == 0.0
    ensures r.Returned? ==> r.value * HintRate(toolLimits, tool) == 1.0
    ensures r.Raised? ==> r.error == Foreign(Plain, FloatDivisionByZero)
  {
    var rate := HintRate(toolLimits, tool);
    if rate == 0.0 then Raised(Foreign(Plain, FloatDivisionByZero)) else Returned(1.0 / rate)
  }

  function RejectionMessage(tool: string, retryAfter: real): string {
    "Rate limit exceeded for " + tool + ". Please retry after " + FormatTenths(retryAfter) + " seconds."
  }

  /** What the wrapper raises when the bucket refuses the call. */
  function Rejection(toolLimits: map<string, Limit>, tool: string): (e: Exception)
    ensures HintRate(toolLimits, tool) != 0.0 ==>
      e == Mcp(NewRateLimitError(Some(RejectionMessage(tool, 1.0 / HintRate(toolLimits, tool))))) &&
      e.error.StatusCode() == 429
  {
    match RetryAfter(toolLimits, tool)
    case Returned(seconds) => Mcp(NewRateLimitError(Some(RejectionMessage(tool, seconds))))
    case Raised(failure) => failure
  }

  /** A tool without a configured limit is told to retry after 1.0 seconds,
      although it draws on the "default" bucket with its own rate. */
  lemma UnconfiguredHintIsOneSecond(toolLimits: map<string, Limit>, tool: string)
    requires tool !in toolLimits
    ensures Rejection(toolLimits, tool) ==
      Mcp(RateLimitError("Rate limit exceeded for " + tool + ". Please retry after 1.0 seconds."))
  {
    OneSecondText();
  }

  /** The hints quoted for the configured tools. */
  lemma ConfiguredHints()
    ensures FormatTenths(1.0 / DefaultLimits["search_medication_price"].rate) == "0.2"
    ensures FormatTenths(1.0 / DefaultLimits["find_generic_alternatives"].rate) == "0.5"
    ensures FormatTenths(1.0 / DefaultLimits["find_pharmacies"].rate) == "0.5"
    ensures FormatTenths(1.0 / DefaultLimits["compare_prices"].rate) == "1.0"
    ensures FormatTenths(1.0 / DefaultLimits[DefaultTool].rate) == "0.1"
  {
    assert RoundHalfEven(2.0) == 2;
    assert RoundHalfEven(5.0) == 5;
    assert RoundHalfEven(1.0) == 1;
    assert NatToString(0) == "0";
    OneSecondText();
  }

  // ---------------------------------------------------------------- the wrapper

  /** `tool_name or func.__name__`: a missing or empty name falls back to the function's. */
  function ActualTool(toolName: Option<string>, funcName: string): (t: string)
    ensures toolName.Some? && toolName.value != "" ==> t == toolName.value
    ensures toolName.None? || toolName.value == "" ==> t == funcName
  {
    if toolName.Some? && toolName.value != "" then toolName.value else funcName
  }

  /** The check `rate_limit`'s wrapper makes before the call: `None` lets the
      call through, otherwise the exception to raise in its place. */
  method RateLimitGate(limiter: RateLimiter, toolName: Option<string>, funcName: string, n: int, now: real)
    returns (refusal: Option<Exception>)
    requires limiter.Valid()
    modifies limiter.Resolve(ActualTool(toolName, funcName))
    ensures limiter.Valid()
    ensures var bucket := limiter.Resolve(ActualTool(toolName, funcName));
      var step := AcquireStep(old(bucket.State()), bucket.rate, bucket.capacity, n, now);
      && bucket.State() == step.bucket
      && (step.granted <==> refusal.None?)
      && (refusal.Some? ==> refusal.value == Rejection(limiter.toolLimits, ActualTool(toolName, funcName)))
  {
    var tool := ActualTool(toolName, funcName);
    var granted := limiter.CheckRateLimit(tool, n, now);
    if !granted {
      return Some(Rejection(limiter.toolLimits, tool));
    }
    return None;
  }

  /** `rate_limit(tool_name, tokens)` around `func`: a refused call raises
      without running `func`; an admitted one is exactly `func`'s call. */
  method RateLimitedCall<A, R>(
    limiter: RateLimiter, toolName: Option<string>, funcName: string, n: int, now: real,
    args: seq<A>, kwargs: map<string, A>, func: (seq<A>, map<string, A>) -> Outcome<R, Exception>)
    returns (r: Outcome<R, Exception>, called: bool)
    requires limiter.Valid()
    modifies limiter.Resolve(ActualTool(toolName, funcName))
    ensures limiter.Valid()
    ensures var bucket := limiter.Resolve(ActualTool(toolName, funcName));
      var step := AcquireStep(old(bucket.State()), bucket.rate, bucket.capacity, n, now);
      && bucket.State() == step.bucket
      && (called <==> step.granted)
      && (called ==> r == func(args, kwargs))
      && (!called ==> r == Raised(Rejection(limiter.toolLimits, ActualTool(toolName, funcName))))
  {
    var refusal := RateLimitGate(limiter, toolName, funcName, n, now);
    if refusal.Some? {
      return Raised(refusal.value), false;
    }
    r := func(args, kwargs);
    called := true;
  }
}
