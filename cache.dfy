/**
 * The in-memory result cache of the MCP tools: a map from call key to an
 * entry with an expiry time, expired lazily on read and by an explicit sweep,
 * and the wrapper that serves a tool's result from the cache or calls the
 * tool and stores what it returns. Wall-clock time is the parameter `now`.
 */
module Cache {
  import opened Common

  // ---------------------------------------------------------------- keys

  /** The canonical form of a call that the SHA-256 key digests: the tool
      name, the positional arguments, and the keyword arguments as a map
      (serialised with sorted keys, so their order does not matter). */
  datatype CacheKey<A> = CacheKey(tool: string, args: seq<A>, kwargs: map<string, A>)

  /** The keyword names of a call are pairwise different. */
  predicate DistinctNames<A>(kwargs: seq<(string, A)>) {
    forall i, j :: 0 <= i < j < |kwargs| ==> kwargs[i].0 != kwargs[j].0
  }

  /** The keyword-argument dict, built in the order the arguments were passed. */
  function KwargsMap<A>(kwargs: seq<(string, A)>): (m: map<string, A>)
    ensures forall i :: 0 <= i < |kwargs| ==> kwargs[i].0 in m
    ensures forall k :: k in m ==> exists i :: 0 <= i < |kwargs| && kwargs[i].0 == k
  {
    if |kwargs| == 0 then map[]
    else
      var last := kwargs[|kwargs| - 1];
      var m := KwargsMap(kwargs[..|kwargs| - 1]);
      assert forall i :: 0 <= i < |kwargs| - 1 ==> kwargs[..|kwargs| - 1][i] == kwargs[i];
      m[last.0 := last.1]
  }

  /** With distinct names, each keyword argument is found under its own name. */
  lemma {:induction false} KwargsMapAt<A>(kwargs: seq<(string, A)>, i: int)
    requires DistinctNames(kwargs) && 0 <= i < |kwargs|
    ensures KwargsMap(kwargs)[kwargs[i].0] == kwargs[i].1
  {
    var n := |kwargs| - 1;
    if i < n {
      var prefix := kwargs[..n];
      assert prefix[i] == kwargs[i];
      KwargsMapAt(prefix, i);
    }
  }

  /** `_generate_key`: the key records the tool name, the positional
      arguments, and every keyword argument under its name. */
  function GenerateKey<A>(tool: string, args: seq<A>, kwargs: seq<(string, A)>): (k: CacheKey<A>)
    ensures k.tool == tool && k.args == args
    ensures DistinctNames(kwargs) ==> forall i :: 0 <= i < |kwargs| ==>
      kwargs[i].0 in k.kwargs && k.kwargs[kwargs[i].0] == kwargs[i].1
  {
    if DistinctNames(kwargs) then
      assert forall i :: 0 <= i < |kwargs| ==> KwargsMap(kwargs)[kwargs[i].0] == kwargs[i].1 by {
        forall i | 0 <= i < |kwargs| ensures KwargsMap(kwargs)[kwargs[i].0] == kwargs[i].1 {
          KwargsMapAt(kwargs, i);
        }
      }
      CacheKey(tool, args, KwargsMap(kwargs))
    else
      CacheKey(tool, args, KwargsMap(kwargs))
  }

  /** Every entry of the dict of `kw1` is in the dict of `kw2` when every
      keyword argument of `kw1` is one of `kw2`. */
  lemma KwargsMapIncluded<A>(kw1: seq<(string, A)>, kw2: seq<(string, A)>)
    requires DistinctNames(kw1) && DistinctNames(kw2)
    requires multiset(kw1) <= multiset(kw2)
    ensures forall k :: k in KwargsMap(kw1) ==> k in KwargsMap(kw2) && KwargsMap(kw2)[k] == KwargsMap(kw1)[k]
  {
    forall k | k in KwargsMap(kw1)
      ensures k in KwargsMap(kw2) && KwargsMap(kw2)[k] == KwargsMap(kw1)[k]
    {
      var i :| 0 <= i < |kw1| && kw1[i].0 == k;
      assert kw1[i] in multiset(kw2);
      var j :| 0 <= j < |kw2| && kw2[j] == kw1[i];
      KwargsMapAt(kw1, i);
      KwargsMapAt(kw2, j);
    }
  }

  /** The key does not depend on the order in which keyword arguments are passed. */
  lemma KeyIgnoresKeywordOrder<A>(tool: string, args: seq<A>, kw1: seq<(string, A)>, kw2: seq<(string, A)>)
    requires DistinctNames(kw1) && DistinctNames(kw2)
    requires multiset(kw1) == multiset(kw2)
    ensures GenerateKey(tool, args, kw1) == GenerateKey(tool, args, kw2)
  {
    KwargsMapIncluded(kw1, kw2);
    KwargsMapIncluded(kw2, kw1);
    assert KwargsMap(kw1) == KwargsMap(kw2);
  }

  // ---------------------------------------------------------------- entries

  datatype Entry<V> = Entry(value: V, expiresAt: real)

  /** An entry is stale strictly after its expiry time. */
  predicate Expired<V>(e: Entry<V>, now: real) {
    now > e.expiresAt
  }

  /** What `get` returns: the stored value of a live entry, else nothing. */
  function Lookup<K, V>(m: map<K, Entry<V>>, key: K, now: real): Option<V> {
    if key in m && !Expired(m[key], now) then Some(m[key].value) else None
  }

  /** What `get` leaves behind: the entry for `key` is evicted if it has expired. */
  function AfterGet<K, V>(m: map<K, Entry<V>>, key: K, now: real): map<K, Entry<V>> {
    if key in m && Expired(m[key], now) then m - {key} else m
  }

  /** `ttl_seconds or self._ttl_seconds`: a missing or zero TTL falls back to the default. */
  function EffectiveTtl(ttl: Option<int>, default: int): (t: int)
    ensures ttl.Some? && ttl.value != 0 ==> t == ttl.value
    ensures ttl.None? || ttl.value == 0 ==> t == default
  {
    if ttl.Some? && ttl.value != 0 then ttl.value else default
  }

  /** What `set` leaves behind. */
  function Stored<K, V>(m: map<K, Entry<V>>, key: K, value: V, ttl: Option<int>, default: int, now: real)
    : map<K, Entry<V>>
  {
    m[key := Entry(value, now + EffectiveTtl(ttl, default) as real)]
  }

  function ExpiredKeys<K, V>(m: map<K, Entry<V>>, now: real): set<K> {
    set k | k in m && Expired(m[k], now)
  }

  /** What `remove_expired` leaves behind. */
  function Sweep<K, V>(m: map<K, Entry<V>>, now: real): map<K, Entry<V>> {
    m - ExpiredKeys(m, now)
  }

  /** A value set at `now` with TTL `ttl` is served until `now + ttl`
      inclusive and not after; other keys are unaffected. */
  lemma SetThenLookup<K, V>(m: map<K, Entry<V>>, key: K, value: V, ttl: Option<int>, default: int,
                            now: real, later: real, other: K)
    ensures Lookup(Stored(m, key, value, ttl, default, now), key, later) ==
      if later <= now + EffectiveTtl(ttl, default) as real then Some(value) else None
    ensures other != key ==> Lookup(Stored(m, key, value, ttl, default, now), other, later) == Lookup(m, other, later)
  {
  }

  /** `get` evicts at most the key it was asked for, and only once it has expired. */
  lemma GetEvictsOnlyItsKey<K, V>(m: map<K, Entry<V>>, key: K, now: real)
    ensures AfterGet(m, key, now).Keys == if Lookup(m, key, now).None? && key in m then m.Keys - {key} else m.Keys
    ensures forall k :: k in AfterGet(m, key, now) ==> AfterGet(m, key, now)[k] == m[k]
  {
  }

  /** The sweep removes exactly the expired entries, never changes what
      `get` would answer at the same instant, and a second sweep at the same
      instant (or an earlier one) removes nothing more. */
  lemma SweepProperties<K, V>(m: map<K, Entry<V>>, now: real, earlier: real, key: K)
    requires earlier <= now
    ensures key in Sweep(m, now) <==> key in m && !Expired(m[key], now)
    ensures key in Sweep(m, now) ==> Sweep(m, now)[key] == m[key]
    ensures Lookup(Sweep(m, now), key, now) == Lookup(m, key, now)
    ensures Sweep(Sweep(m, now), earlier) == Sweep(m, now)
  {
    assert Sweep(Sweep(m, now), earlier) == Sweep(m, now);
  }

  // ---------------------------------------------------------------- the cache

  /** `MCPCache`'s default lifetime in seconds, and that of the shared cache
      the decorator uses; callers pass it to the constructor. */
  const DefaultTtlSeconds: int := 3600

  /** `MCPCache` */
  class TtlCache<K(==), V> {
    var entries: map<K, Entry<V>>
    const ttlSeconds: int

    constructor (ttlSeconds: int)
      ensures entries == map[] && this.ttlSeconds == ttlSeconds
    {
      entries := map[];
      this.ttlSeconds := ttlSeconds;
    }

    /** `get`: the value of a live entry; an expired entry is evicted. */
    method Get(key: K, now: real) returns (r: Option<V>)
      modifies this
      ensures r == Lookup(old(entries), key, now)
      ensures entries == AfterGet(old(entries), key, now)
    {
      if key !in entries {
        return None;
      }
      var entry := entries[key];
      if now > entry.expiresAt {
        entries := entries - {key};
        return None;
      }
      r := Some(entry.value);
    }

    /** `set`: overwrites any entry for the key, expiring `ttl` (or the default) from `now`. */
    method Set(key: K, value: V, ttl: Option<int>, now: real)
      modifies this
      ensures entries == Stored(old(entries), key, value, ttl, ttlSeconds, now)
    {
      var expiresAt := now + EffectiveTtl(ttl, ttlSeconds) as real;
      entries := entries[key := Entry(value, expiresAt)];
    }

    /** `clear` */
    method Clear()
      modifies this
      ensures entries == map[]
    {
      entries := map[];
    }

    /** `remove_expired`: collects the expired keys, then deletes them one by one. */
    method RemoveExpired(now: real)
      modifies this
      ensures entries == Sweep(old(entries), now)
    {
      ghost var original := entries;
      var expired := set k | k in entries && now > entries[k].expiresAt;
      assert expired == ExpiredKeys(original, now);
      while expired != {}
        invariant expired <= ExpiredKeys(original, now)
        invariant entries == original - (ExpiredKeys(original, now) - expired)
        decreases expired
      {
        var k :| k in expired;
        entries := entries - {k};
        expired := expired - {k};
      }
    }
  }

  // ---------------------------------------------------------------- the wrapper

  /** The outcome, whether the tool ran, and the cache contents after one call. */
  datatype CachedStep<R, E, A(==)> = CachedStep(
    outcome: Outcome<Option<R>, E>,
    called: bool,
    entries: map<CacheKey<A>, Entry<Option<R>>>)

  /** One call through `cache_mcp_result`: a stored value other than `None`
      that is still live is returned without calling the tool; otherwise the
      tool runs, and what it returns (but not what it raises) is stored,
      with the expiry counted from `finishedAt`, when the tool has returned.
      A `None` result is stored but never served. */
  function CachedCallSpec<A(==), R, E>(
    entries: map<CacheKey<A>, Entry<Option<R>>>, defaultTtl: int,
    funcName: string, args: seq<A>, kwargs: seq<(string, A)>, ttl: Option<int>,
    now: real, finishedAt: real, tool: (seq<A>, map<string, A>) -> Outcome<Option<R>, E>)
    : CachedStep<R, E, A>
  {
    var key := GenerateKey(funcName, args, kwargs);
    var cached := Lookup(entries, key, now);
    var afterGet := AfterGet(entries, key, now);
    if cached.Some? && cached.value.Some? then
      CachedStep(Returned(cached.value), false, afterGet)
    else
      var result := tool(args, KwargsMap(kwargs));
      match result
      case Returned(v) => CachedStep(result, true, Stored(afterGet, key, v, ttl, defaultTtl, finishedAt))
      case Raised(_) => CachedStep(result, true, afterGet)
  }

  /** A hit changes nothing and returns the stored value; a miss calls the tool
      and returns exactly what it returned or raised. */
  lemma CachedCallHitOrMiss<A, R, E>(
    entries: map<CacheKey<A>, Entry<Option<R>>>, defaultTtl: int,
    funcName: string, args: seq<A>, kwargs: seq<(string, A)>, ttl: Option<int>,
    now: real, finishedAt: real, tool: (seq<A>, map<string, A>) -> Outcome<Option<R>, E>)
    ensures var step := CachedCallSpec(entries, defaultTtl, funcName, args, kwargs, ttl, now, finishedAt, tool);
      var key := GenerateKey(funcName, args, kwargs);
      && (!step.called <==> key in entries && !Expired(entries[key], now) && entries[key].value.Some?)
      && (!step.called ==> step.outcome == Returned(entries[key].value) && step.entries == entries)
      && (step.called ==> step.outcome == tool(args, KwargsMap(kwargs)))
      && (step.called && step.outcome.Raised? ==> key !in step.entries || step.entries[key].value.None?)
  {
  }

  /** A call that produced no value, because the tool raised or returned
      `None`, leaves nothing to serve: the next identical call, whenever it
      comes, runs the tool again. */
  lemma {:induction false} NoValueIsRetried<A, R, E>(
    entries: map<CacheKey<A>, Entry<Option<R>>>, defaultTtl: int,
    funcName: string, args: seq<A>, kwargs: seq<(string, A)>, ttl: Option<int>,
    now: real, finishedAt: real, later: real, laterFinish: real,
    tool: (seq<A>, map<string, A>) -> Outcome<Option<R>, E>)
    requires var first := CachedCallSpec(entries, defaultTtl, funcName, args, kwargs, ttl, now, finishedAt, tool);
      first.called && (first.outcome.Raised? || first.outcome.value.None?)
    ensures var first := CachedCallSpec(entries, defaultTtl, funcName, args, kwargs, ttl, now, finishedAt, tool);
      CachedCallSpec(first.entries, defaultTtl, funcName, args, kwargs, ttl, later, laterFinish, tool).called
  {
    var key := GenerateKey(funcName, args, kwargs);
    var first := CachedCallSpec(entries, defaultTtl, funcName, args, kwargs, ttl, now, finishedAt, tool);
    var cached := Lookup(entries, key, now);
    assert !(cached.Some? && cached.value.Some?);
    var afterGet := AfterGet(entries, key, now);
    assert key in afterGet ==> afterGet[key].value.None?;
    assert key in first.entries ==> first.entries[key].value.None?;
  }

  /** After a call that ran the tool and stored a value, an identical call
      made before the entry expires is served from the cache without running the tool. */
  lemma {:induction false} ValueIsServedUntilExpiry<A, R, E>(
    entries: map<CacheKey<A>, Entry<Option<R>>>, defaultTtl: int,
    funcName: string, args: seq<A>, kwargs: seq<(string, A)>, ttl: Option<int>,
    now: real, finishedAt: real, later: real, laterFinish: real,
    tool: (seq<A>, map<string, A>) -> Outcome<Option<R>, E>)
    requires var first := CachedCallSpec(entries, defaultTtl, funcName, args, kwargs, ttl, now, finishedAt, tool);
      first.called && first.outcome.Returned? && first.outcome.value.Some?
    requires later <= finishedAt + EffectiveTtl(ttl, defaultTtl) as real
    ensures var first := CachedCallSpec(entries, defaultTtl, funcName, args, kwargs, ttl, now, finishedAt, tool);
      var second := CachedCallSpec(first.entries, defaultTtl, funcName, args, kwargs, ttl, later, laterFinish, tool);
      !second.called && second.outcome == first.outcome && second.entries == first.entries
  {
    var key := GenerateKey(funcName, args, kwargs);
    var first := CachedCallSpec(entries, defaultTtl, funcName, args, kwargs, ttl, now, finishedAt, tool);
    assert first.entries == Stored(AfterGet(entries, key, now), key, first.outcome.value, ttl, defaultTtl, finishedAt);
    assert first.entries[key] == Entry(first.outcome.value, finishedAt + EffectiveTtl(ttl, defaultTtl) as real);
  }

  /** `cache_mcp_result`'s wrapper around `tool` on the cache `cache`:
      looks the call up at `now` and, on a miss, runs the tool and stores
      its result at `finishedAt`. */
  method CachedCall<A(==), R, E>(
    cache: TtlCache<CacheKey<A>, Option<R>>,
    funcName: string, args: seq<A>, kwargs: seq<(string, A)>, ttl: Option<int>,
    now: real, finishedAt: real, tool: (seq<A>, map<string, A>) -> Outcome<Option<R>, E>)
    returns (outcome: Outcome<Option<R>, E>, called: bool)
    modifies cache
    ensures CachedStep(outcome, called, cache.entries) ==
      CachedCallSpec(old(cache.entries), cache.ttlSeconds, funcName, args, kwargs, ttl, now, finishedAt, tool)
  {
    var key := GenerateKey(funcName, args, kwargs);
    var cached := cache.Get(key, now);
    if cached.Some? && cached.value.Some? {
      return Returned(cached.value), false;
    }
    outcome := tool(args, KwargsMap(kwargs));
    called := true;
    if outcome.Returned? {
      cache.Set(key, outcome.value, ttl, finishedAt);
    }
  }
}
