# Medication price chatbot backend: a Dafny model

This project models the core of the chatbot's backend:

- **MCP error handling** (`backend/errors.py`):
  - the error classes, each with its fixed error type and status code;
  - the HTTP-status-to-error mapping;
  - the JSON error response;
  - the conversion of validation failures;
  - the exception mapping applied around every MCP tool.
- **The MCP result cache** (`backend/cache.py`):
  - `MCPCache`, a TTL cache whose methods update its dictionary in place (a class here);
  - the `cache_mcp_result` wrapper.
- **Rate limiting** (`backend/rate_limit.py`):
  - `TokenBucket`;
  - `RateLimiter`, one bucket per configured tool plus a shared "default" bucket;
  - the `rate_limit` wrapper and the retry hint it raises;
  - the `RateLimitTracker` usage log.
- **The chat endpoint's helpers** (`backend/main.py`):
  - the pharmacy name derived from a URL;
  - the medication name found in a message;
  - the decision to search for prices, and the reply chosen when it does not.

The modules follow the source files:

| module | file |
|---|---|
| `Errors` | `errors.dfy` |
| `Cache` | `cache.dfy` |
| `RateLimit` | `rate_limit.dfy` |
| `UsageTracker` | `usage.dfy` (the tracker half of `rate_limit.py`) |
| `Chat` | `chat.dfy` |
| `Text` | `text.dfy`: the Python string methods `main.py` relies on (`lower`, `in`, `title`, `split`, `isalpha`) |
| `Composition` | `composition.dfy`: a tool under both wrappers, as the combined test stacks them |
| `Common` | `common.dfy`: `Option` and `Outcome`, where `Outcome` is either a returned value or a raised exception |

Clocks are parameters. `time.time()` and `datetime.now()` become a `now: real` argument, and the time a tool call finishes is a second argument `finishedAt`. Tools and the price search are function-valued parameters.

Each stateful operation is a method proved equal to a specification function of the old state. The properties the source promises are then lemmas about those functions:

- tokens never exceed the burst capacity;
- over any stretch of time, no more is granted than the burst plus the rate times the elapsed time;
- cached values are served until they expire;
- results that are `None` or raised exceptions are never served from the cache;
- the window statistics survive a cleanup with an older cutoff.

## Model

| member | source | states |
|---|---|---|
| Errors.NewBaseError | backend/errors.py:9-15 | a plain MCP error keeps its message, with type "MCPError" and status 400 by default |
| Errors.NewValidationError | backend/errors.py:27-35 | status 422; a missing validation map becomes the empty map, a given one is kept |
| Errors.NewAuthenticationError | backend/errors.py:37-44 | status 401, type "MCPAuthenticationError"; the message defaults to "Authentication failed" |
| Errors.NewRateLimitError | backend/errors.py:46-53 | status 429, type "MCPRateLimitError"; the message defaults to "Rate limit exceeded" |
| Errors.LocationMapKeys | backend/errors.py:65-75 | a location is a key of the validation map iff some error detail has that joined location |
| Errors.LocationMapLast | backend/errors.py:67-70 | the message under a location is that of the last detail with that location |
| Errors.ValidationFailure | backend/errors.py:65-75 | the converted error has message "Validation error", status 422, and the location map of the details as its validation errors |
| Errors.HandleValidationError | backend/errors.py:65-75 | the loop over the details builds exactly the location map of `ValidationFailure` |
| Errors.HandleHttpError | backend/errors.py:77-88 | 400/401/422/429 give their class with the detail as message; 502 raises (the dependency class needs a name it is not given) iff the code is 502; any other code gives a plain error with status 400 |
| Errors.HttpErrorRoundTrip | backend/errors.py:77-88 | an error of a mapped class without a tool name or validation details is rebuilt unchanged from its status and message |
| Errors.FormatErrorResponse | backend/errors.py:90-112 | `error` and `type` come from the error (or "ServerError" for a foreign exception); `validation_errors`, `tool` and `dependency` are present iff the error supplies a non-empty one |
| Errors.HandleMcpErrors | backend/errors.py:115-128 | results and MCP errors pass unchanged; pydantic errors become validation errors; an HTTP exception is raised as what `handle_http_error` makes of its status and detail (or the TypeError it raises); any other `Exception` becomes a tool error with `str(e)`; a `BaseException` that is not an `Exception` passes unchanged; anything raised stays raised |
| Errors.HandledErrorsAreMcp | backend/errors.py:115-128 | an escaping exception is an MCP error exactly when it is neither the TypeError of an HTTP 502 nor an uncaught `BaseException` |
| Errors.HandleMcpErrorsTwice | backend/errors.py:115-128 | wrapping twice is wrapping once, except that the escaped 502 TypeError becomes a tool error |
| Cache.KwargsMap | backend/cache.py:68-70 | every keyword argument's name is a key, and every key is some argument's name |
| Cache.KwargsMapAt | backend/cache.py:68-70 | with distinct names, each keyword argument is found under its own name |
| Cache.GenerateKey | backend/cache.py:19-25 | the key records the tool name, the positional arguments and each keyword argument's value under its name |
| Cache.KwargsMapIncluded | backend/cache.py:19-25 | the keyword dict of a sub-multiset of arguments is included in that of the whole |
| Cache.KeyIgnoresKeywordOrder | backend/cache.py:22-24 | keyword arguments in any order give the same key (`sort_keys=True`) |
| Cache.EffectiveTtl | backend/cache.py:41 | a given non-zero TTL is used; a missing or zero one falls back to the default |
| Cache.SetThenLookup | backend/cache.py:27-45 | a value set at `now` is returned until `now + ttl` and not after; other keys are unaffected |
| Cache.GetEvictsOnlyItsKey | backend/cache.py:27-37 | `get` removes only its own key, and only when that entry has expired; other entries are unchanged |
| Cache.SweepProperties | backend/cache.py:51-59 | the sweep keeps exactly the live entries, unchanged; lookups at that time see no difference; sweeping again earlier removes nothing |
| Cache.TtlCache.constructor | backend/cache.py:15-17 | a new cache is empty and has the given default TTL |
| Cache.TtlCache.Get | backend/cache.py:27-37 | returns the live value for the key and evicts it if expired |
| Cache.TtlCache.Set | backend/cache.py:39-45 | overwrites the key's entry, expiring after the given or default TTL |
| Cache.TtlCache.Clear | backend/cache.py:47-49 | the cache is empty afterwards |
| Cache.TtlCache.RemoveExpired | backend/cache.py:51-59 | the loop over the collected expired keys leaves exactly the sweep of the old entries |
| Cache.CachedCallHitOrMiss | backend/cache.py:64-83 | the tool is skipped iff a live non-`None` value is stored, which is then returned with the cache unchanged; otherwise the tool's own result or exception is returned, and an exception stores nothing to serve |
| Cache.NoValueIsRetried | backend/cache.py:74-79 | after a call that raised or returned `None`, the next identical call runs the tool again |
| Cache.ValueIsServedUntilExpiry | backend/cache.py:64-83 | after a stored value, an identical call before its expiry is answered from the cache without running the tool |
| Cache.CachedCall | backend/cache.py:68-80 | the wrapper's outcome, whether it ran the tool, and the new cache are those of `CachedCallSpec` |
| RateLimit.RefillKeepsBounds | backend/rate_limit.py:21-28 | with a clock that does not run backwards, refilling never lowers the tokens and keeps them within 0 and the capacity |
| RateLimit.AcquireStep | backend/rate_limit.py:30-38 | every acquire stamps the bucket with the current time |
| RateLimit.AcquireKeepsBounds | backend/rate_limit.py:30-38 | an acquire is granted iff the refilled tokens cover `n`, and then takes exactly `n`; a refusal only refills; the bucket stays in bounds |
| RateLimit.EnoughTokensIsGranted | backend/rate_limit.py:30-38 | an acquire of no more than the tokens present is granted |
| RateLimit.WaitingIsEnough | backend/rate_limit.py:21-38 | waiting `(n - tokens) / rate` seconds makes an acquire of `n` within the capacity succeed |
| RateLimit.Replay | backend/rate_limit.py:30-38 | a run of acquires decides each request and ends stamped with the last request's time |
| RateLimit.StepWithinBudget | backend/rate_limit.py:21-38 | one acquire hands out no more than the tokens found plus those earned since |
| RateLimit.EarnedAlongTelescopes | backend/rate_limit.py:24-25 | the tokens earned between consecutive requests add up to the rate times the whole stretch |
| RateLimit.ReplayKeepsBounds | backend/rate_limit.py:21-38 | over any chronological run, the tokens stay within 0 and the capacity |
| RateLimit.ReplayWithinBudget | backend/rate_limit.py:21-38 | tokens granted plus tokens left never exceed the tokens at the start plus those earned along the run |
| RateLimit.ReplayWithinRate | backend/rate_limit.py:21-38 | the same bound, with the rate times the elapsed time as the earnings |
| RateLimit.GrantedWithinBurstAndRate | backend/rate_limit.py:12-38 | no stretch of time grants more than the capacity plus the rate times its length |
| RateLimit.BurstAtOneInstant | backend/rate_limit.py:30-38 | of single-token acquires made at one instant, the i-th is granted iff at least i+1 tokens were there |
| RateLimit.NewBucketBurst | backend/tests/test_cache_rate_limit.py:130-139 | a new bucket of rate 1 and burst 2 grants two acquires made at once and refuses the third |
| RateLimit.TokenBucket.constructor | backend/rate_limit.py:15-19 | a new bucket is full, stamped with the creation time |
| RateLimit.TokenBucket.AddTokens | backend/rate_limit.py:21-28 | the bucket becomes the refill of its old state |
| RateLimit.TokenBucket.Acquire | backend/rate_limit.py:30-38 | the answer and new state are those of `AcquireStep` on the old state |
| RateLimit.RateLimiter.constructor | backend/rate_limit.py:43-56 | one fresh, full bucket per configured tool with that tool's rate and burst; the limits are the configured table |
| RateLimit.RateLimiter.Resolve | backend/rate_limit.py:60 | a tool's own bucket, or the "default" bucket for a tool without one |
| RateLimit.RateLimiter.CheckRateLimit | backend/rate_limit.py:58-61 | an acquire on the resolved bucket; every other bucket is unchanged |
| RateLimit.UnconfiguredToolsShareDefault | backend/rate_limit.py:45-60 | two unconfigured tools draw on the same "default" bucket; with the configured table, that bucket has rate 10 and burst 20 |
| RateLimit.DefaultBucketGrantsThird | backend/tests/test_cache_rate_limit.py:176-189 | a full default bucket grants three acquires made at once |
| RateLimit.RoundHalfEven | backend/rate_limit.py:79 | the nearest integer, ties to even |
| RateLimit.RoundHalfEvenUnique | backend/rate_limit.py:79 | those two properties determine the rounding |
| RateLimit.NatToString | backend/rate_limit.py:79 | decimal digits without a leading zero |
| RateLimit.ParseNatToString | backend/rate_limit.py:79 | reading the digits back gives the number |
| RateLimit.UnsignedTenthsValue | backend/rate_limit.py:79 | the `.1f` text has one digit after the point and reads back as the value rounded half-to-even to tenths, within 0.05 |
| RateLimit.FormatTenths | backend/rate_limit.py:79 | the `.1f` text has at least three characters and starts with a minus sign exactly for a negative number |
| RateLimit.FormatNonNegativeTenths | backend/rate_limit.py:79 | the text of a non-negative number has no sign and reads back as the number rounded half-to-even to tenths |
| RateLimit.FormatNegativeTenths | backend/rate_limit.py:79 | the text of a negative number is a minus sign followed by the text of its magnitude |
| RateLimit.OneSecondText | backend/rate_limit.py:79 | one second is written "1.0" |
| RateLimit.RetryAfter | backend/rate_limit.py:76 | the hint is the inverse of the tool's rate (1 for a tool without limits); a zero rate raises ZeroDivisionError |
| RateLimit.Rejection | backend/rate_limit.py:76-80 | a rate-limit error naming the tool and the formatted hint |
| RateLimit.UnconfiguredHintIsOneSecond | backend/rate_limit.py:76-80 | an unconfigured tool is told to retry after 1.0 seconds |
| RateLimit.ConfiguredHints | backend/rate_limit.py:45-51 | the configured tools' hints read 0.2, 0.5, 0.5, 1.0 and 0.1 |
| RateLimit.ActualTool | backend/rate_limit.py:72 | a given non-empty tool name, else the function's name |
| RateLimit.RateLimitGate | backend/rate_limit.py:72-80 | the resolved bucket takes one acquire step; the call passes iff granted, else the rejection is raised |
| RateLimit.RateLimitedCall | backend/rate_limit.py:66-84 | a refused call raises the rejection without running the tool; an admitted call is exactly the tool's call |
| UsageTracker.Recent | backend/rate_limit.py:108-111 | the kept times are exactly those after the cutoff, each kept as often as it was recorded |
| UsageTracker.RecentAppend | backend/rate_limit.py:108-111 | filtering distributes over appending |
| UsageTracker.RecentTwice | backend/rate_limit.py:128-132 | filtering with a cutoff and then a later one equals filtering with the later one |
| UsageTracker.RecordThenCount | backend/rate_limit.py:92-121 | a recorded request adds one to its tool's count over any positive window ending now; other tools are unaffected |
| UsageTracker.CleanupKeepsWindowStats | backend/rate_limit.py:99-132 | a cleanup with a cutoff no later than the window's start leaves the window's statistics unchanged |
| UsageTracker.CleanupZeroAge | backend/tests/test_cache_rate_limit.py:209-212 | a cleanup with maximum age 0 empties every log, so later counts are 0 |
| UsageTracker.ThreeRecordsInWindow | backend/tests/test_cache_rate_limit.py:195-207 | three requests in the last minute count 3 over a 60-second window, at rate 3/60 |
| UsageTracker.FilterAfter | backend/rate_limit.py:108-111 | the list comprehension's loop keeps exactly `Recent` |
| UsageTracker.RateLimitTracker.constructor | backend/rate_limit.py:89-90 | a new tracker has no usage |
| UsageTracker.RateLimitTracker.RecordRequest | backend/rate_limit.py:92-97 | the time is appended to the tool's log, created empty if needed |
| UsageTracker.RateLimitTracker.GetUsageStats | backend/rate_limit.py:99-121 | the statistics of `Stats`: none for an unknown tool, otherwise the count in the window, the count per second, and the window |
| UsageTracker.RateLimitTracker.CleanupOldData | backend/rate_limit.py:123-132 | every log keeps exactly its times after the cutoff, and no tool is removed |
| Composition.LimitedCachedCall | backend/rate_limit.py:66-84 | the bucket takes its acquire step first; a refusal raises and leaves the cache alone; an admission goes through the cache |
| Composition.AdmittedCallsSpendTokens | backend/cache.py:64-83 | an admitted call spends `n` of the refilled tokens whether or not the cache answers it; a refused one leaves the cache unchanged |
| Composition.ThreeCallsThroughBothWrappers | backend/tests/test_cache_rate_limit.py:214-246 | for a tool on the default bucket with a one-second TTL: the first call runs the tool, the second is served from the cache, the third runs it again after expiry; all three are granted |
| Text.LowerStr | backend/main.py:167 | `lower()` keeps the length and lower-cases each character |
| Text.ContainsIff | backend/main.py:168 | `sub in s` holds iff `sub` occurs at some index |
| Text.Title | backend/main.py:242 | `title()` keeps the length, upper-cases each character not preceded by a letter and lower-cases each one that is |
| Text.TitleOfWord | backend/main.py:242-249 | `title()` of an alphabetic word upper-cases its first letter and lower-cases the rest |
| Text.WordLength | backend/main.py:246 | the leading run of non-whitespace ends at whitespace or the end |
| Text.Split | backend/main.py:246 | every word of `split()` is non-empty and free of whitespace |
| Text.SplitAtSpace | backend/main.py:246 | `split()` cuts at every whitespace character: the words around it are those of each side |
| Text.SplitKeepsNonSpace | backend/main.py:246 | the words of `split()`, glued together, are the string without its whitespace |
| Text.SplitOfWord | backend/main.py:246 | a non-empty string without whitespace splits into itself |
| Chat.FirstContained | backend/main.py:150-152 | the scan finds the first key, in table order, contained in the string, or reports that none is |
| Chat.FirstMatchUnique | backend/main.py:150-152 | the first match is unique |
| Chat.ExtractPharmacyName | backend/main.py:137-154 | the name of the first listed domain in the URL; "Online Pharmacy" iff no listed domain occurs |
| Chat.ExtractNameWith | backend/main.py:228-251 | the title case of the first known medication in the lower-cased message; failing that, the title case of the first word that is alphabetic and longer than four characters; `None` iff neither exists |
| Chat.ExtractMedicationName | backend/main.py:228-251 | with the fixed list: the title case of the first listed medication in the lower-cased message; failing that, a name iff some word of the message is alphabetic and longer than four characters |
| Chat.FallbackNameShape | backend/main.py:246-249 | a fallback name is an alphabetic word of more than four letters: upper-case first letter, lower-case rest |
| Chat.SomeKeyContainedIff | backend/main.py:168 | some key is contained in the string iff some key starts at some position of it |
| Chat.IsMedicationQuery | backend/main.py:161-168 | a message is a medication query iff one of the listed keywords starts at some position of the lower-cased message |
| Chat.GeneralReply | backend/main.py:207-226 | the reply of the first greeting keyword in the message with its suggestions, or the default reply and suggestions |
| Chat.ProcessChatMessage | backend/main.py:157-226 | a search happens iff a medication keyword occurs and a name is extracted; then the prices are the search's and the reply and suggestions depend on whether any were found; otherwise no prices and the greeting or default reply |

## Left out

- The HTTP endpoints, FastAPI models, CORS setup, startup tasks and the web search (`backend/tavily_mcp.py`) are not part of this model.
- `search_medication_prices` and `extract_price_from_content` are left out. The price search is a parameter of `ProcessChatMessage`, and `user_location` is only passed on to it.
- The background loops `clean_expired_cache` and `clean_old_usage_data` sleep forever. Only the single cleanup they repeat is modelled.
- `async` and awaiting are left out; each call runs to completion. Clocks are parameters, and nothing checks that they are monotone except where a lemma requires it.
- Cache.GenerateKey: the key is the structured call, not the SHA-256 of its JSON text. Hash collisions and JSON serialisation failures are not modelled. Keyword arguments are keyed by name, as `sort_keys` makes them.
- RateLimit.TokenBucket.Acquire: times, rates and tokens are exact reals, not IEEE doubles. Float rounding in `elapsed * rate` is not modelled.
- RateLimit.UnsignedTenthsValue: the `.1f` text rounds the exact real half-to-even. Python rounds the double's binary value, which can differ on ties that a double cannot represent exactly.
- UsageTracker.RateLimitTracker.GetUsageStats: the rate for a window that is not positive is the real 0.0, where Python returns the integer 0. For an unknown tool the Python dict has no `window_seconds` key, which the model renders as `None`.
- Text.LowerStr: characters outside ASCII are not case-mapped, and `isspace` recognises only ASCII whitespace. `str.title`, `str.lower` and `str.isalpha` are modelled on ASCII.
- Errors.FormatErrorResponse: `str(e)` of a non-MCP exception is an input, not computed.
- Default arguments are explicit parameters: MCPCache's `ttl_seconds=3600`, `get_usage_stats`'s `window_seconds=3600`, `cleanup_old_data`'s `max_age_seconds=86400` and the `tokens=1` of `check_rate_limit` and `rate_limit`. The constants `Cache.DefaultTtlSeconds`, `UsageTracker.DefaultWindowSeconds`, `UsageTracker.DefaultMaxAgeSeconds` and `RateLimit.DefaultTokens` record them.
- RateLimit.RateLimiter.constructor: the buckets are created in an unspecified order, at one instant. Creation order is not observable.
- The tests at `backend/tests/test_cache_rate_limit.py:176-193` and `:214-246` expect the third call to be refused. The code sends "test_tool" to the shared default bucket of burst 20, so the model grants it (`DefaultBucketGrantsThird`, `ThreeCallsThroughBothWrappers`). The model follows the code.
- The test at `backend/tests/test_cache_rate_limit.py:158-173` assigns to the limiter's dictionaries directly. The model does not expose that mutation.
- The scripts under `backend/examples/` are usage examples and are not part of this model.
