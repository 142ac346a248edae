/**
 * `RateLimitTracker`: a per-tool log of request times, the usage statistics
 * over a trailing window, and the pruning of entries older than a maximum age.
 * Times are seconds; the clock reading `now` is a parameter.
 */
module UsageTracker {
  import opened Common

  /** `[ts for ts in stamps if ts > cutoff]`: the times after `cutoff`, in order. */
  function Recent(stamps: seq<real>, cutoff: real): (r: seq<real>)
    ensures |r| <= |stamps|
    ensures forall t :: t in r <==> t in stamps && t > cutoff
    ensures forall t :: multiset(r)[t] == if t > cutoff then multiset(stamps)[t] else 0
  {
    if |stamps| == 0 then []
    else
      assert stamps == [stamps[0]] + stamps[1..];
      (if stamps[0] > cutoff then [stamps[0]] else []) + Recent(stamps[1..], cutoff)
  }

  /** Filtering a concatenation filters each part. */
  lemma {:induction false} RecentAppend(a: seq<real>, b: seq<real>, cutoff: real)
    ensures Recent(a + b, cutoff) == Recent(a, cutoff) + Recent(b, cutoff)
  {
    if |a| > 0 {
      assert (a + b)[1..] == a[1..] + b;
      RecentAppend(a[1..], b, cutoff);
    } else {
      assert a + b == b;
    }
  }

  /** Filtering with a cutoff and then a later one is filtering with the later one. */
  lemma {:induction false} RecentTwice(stamps: seq<real>, c: real, d: real)
    requires c <= d
    ensures Recent(Recent(stamps, c), d) == Recent(stamps, d)
  {
    if |stamps| > 0 {
      RecentTwice(stamps[1..], c, d);
      var head := if stamps[0] > c then [stamps[0]] else [];
      RecentAppend(head, Recent(stamps[1..], c), d);
    }
  }

  /** Nothing is dropped when every time is after the cutoff... */
  lemma {:induction false} RecentAllNewer(stamps: seq<real>, cutoff: real)
    requires forall i :: 0 <= i < |stamps| ==> stamps[i] > cutoff
    ensures Recent(stamps, cutoff) == stamps
  {
    if |stamps| > 0 {
      RecentAllNewer(stamps[1..], cutoff);
    }
  }

  /** ...and everything is dropped when none is. */
  lemma {:induction false} RecentNoneNewer(stamps: seq<real>, cutoff: real)
    requires forall i :: 0 <= i < |stamps| ==> stamps[i] <= cutoff
    ensures Recent(stamps, cutoff) == []
  {
    if |stamps| > 0 {
      RecentNoneNewer(stamps[1..], cutoff);
    }
  }

  /** The defaults of `get_usage_stats`'s window and `cleanup_old_data`'s
      maximum age, in seconds; callers pass them explicitly. */
  const DefaultWindowSeconds: int := 3600
  const DefaultMaxAgeSeconds: int := 86400

  /** The result of `get_usage_stats`; `windowSeconds` is absent from the
      answer for a tool that has never been recorded. */
  datatype UsageStats = UsageStats(requests: nat, rate: real, windowSeconds: Option<int>)

  /** `get_usage_stats(tool, window_seconds)` at time `now`: the requests
      after `now - window_seconds`, and their number per second of the window
      (0 for a window that is not positive). */
  function Stats(usage: map<string, seq<real>>, tool: string, windowSeconds: int, now: real): UsageStats {
    if tool !in usage then UsageStats(0, 0.0, None)
    else
      var n := |Recent(usage[tool], now - windowSeconds as real)|;
      UsageStats(n, if windowSeconds > 0 then n as real / windowSeconds as real else 0.0, Some(windowSeconds))
  }

  /** `record_request(tool)` at time `now`: `now` is appended to the tool's
      log, which is created empty first if needed. */
  function Recorded(usage: map<string, seq<real>>, tool: string, now: real): map<string, seq<real>> {
    usage[tool := (if tool in usage then usage[tool] else []) + [now]]
  }

  /** `cleanup_old_data` with cutoff `now - max_age_seconds`: every log keeps
      only its times after the cutoff; no tool is removed. */
  function Cleaned(usage: map<string, seq<real>>, cutoff: real): map<string, seq<real>> {
    map t | t in usage :: Recent(usage[t], cutoff)
  }

  /** Every recorded time is no later than `now`: the clock does not run backwards. */
  predicate RecordedBy(usage: map<string, seq<real>>, now: real) {
    forall t, i :: t in usage && 0 <= i < |usage[t]| ==> usage[t][i] <= now
  }

  // ---------------------------------------------------------------- properties

  /** Recording a request for a tool adds one to its count over any positive
      window ending now, and leaves every other tool's statistics alone. */
  lemma RecordThenCount(usage: map<string, seq<real>>, tool: string, windowSeconds: int, now: real, other: string)
    requires windowSeconds > 0 && other != tool
    ensures Stats(Recorded(usage, tool, now), tool, windowSeconds, now).requests ==
      Stats(usage, tool, windowSeconds, now).requests + 1
    ensures Stats(Recorded(usage, tool, now), other, windowSeconds, now) == Stats(usage, other, windowSeconds, now)
  {
    var old_ := if tool in usage then usage[tool] else [];
    var cutoff := now - windowSeconds as real;
    RecentAppend(old_, [now], cutoff);
    if tool !in usage {
      assert Recent(old_, cutoff) == [];
    }
  }

  /** Cleaning up with a cutoff no later than the start of a window changes
      nothing in the statistics over that window. */
  lemma CleanupKeepsWindowStats(usage: map<string, seq<real>>, cutoff: real, tool: string, windowSeconds: int, now: real)
    requires cutoff <= now - windowSeconds as real
    ensures Stats(Cleaned(usage, cutoff), tool, windowSeconds, now) == Stats(usage, tool, windowSeconds, now)
  {
    if tool in usage {
      RecentTwice(usage[tool], cutoff, now - windowSeconds as real);
    }
  }

  /** Cleaning up with a maximum age of zero empties every log (the tools
      stay known), so a later query counts no requests over any window. */
  lemma CleanupZeroAge(usage: map<string, seq<real>>, now: real, later: real, tool: string, windowSeconds: int)
    requires RecordedBy(usage, now) && now <= later
    ensures forall t :: t in Cleaned(usage, now) ==> Cleaned(usage, now)[t] == []
    ensures Stats(Cleaned(usage, now), tool, windowSeconds, later).requests == 0
    ensures tool in usage ==> Stats(Cleaned(usage, now), tool, windowSeconds, later).windowSeconds == Some(windowSeconds)
  {
    forall t | t in usage
      ensures Cleaned(usage, now)[t] == []
    {
      RecentNoneNewer(usage[t], now);
    }
    if tool in usage {
      assert Recent(Cleaned(usage, now)[tool], later - windowSeconds as real) == [];
    }
  }

  /** Three requests recorded within the last minute by a fresh tracker are
      counted over a 60-second window, at a positive rate. */
  lemma ThreeRecordsInWindow(tool: string, t1: real, t2: real, t3: real, now: real)
    requires now - 60.0 < t1 <= t2 <= t3 <= now
    ensures var usage := Recorded(Recorded(Recorded(map[], tool, t1), tool, t2), tool, t3);
      Stats(usage, tool, 60, now) == UsageStats(3, 3.0 / 60.0, Some(60))
  {
    var usage := Recorded(Recorded(Recorded(map[], tool, t1), tool, t2), tool, t3);
    assert usage[tool] == [t1, t2, t3];
    RecentAllNewer([t1, t2, t3], now - 60.0);
  }

  // ---------------------------------------------------------------- the tracker object

  /** `[ts for ts in stamps if ts > cutoff]`, built one element at a time. */
  method FilterAfter(stamps: seq<real>, cutoff: real) returns (kept: seq<real>)
    ensures kept == Recent(stamps, cutoff)
  {
    kept := [];
    var i := 0;
    while i < |stamps|
      invariant 0 <= i <= |stamps|
      invariant kept == Recent(stamps[..i], cutoff)
    {
      assert stamps[..i + 1] == stamps[..i] + [stamps[i]];
      RecentAppend(stamps[..i], [stamps[i]], cutoff);
      if stamps[i] > cutoff {
        kept := kept + [stamps[i]];
      }
      i := i + 1;
    }
    assert stamps[..i] == stamps;
  }

  /** `RateLimitTracker` */
  class RateLimitTracker {
    var usage: map<string, seq<real>>

    constructor ()
      ensures usage == map[]
    {
      usage := map[];
    }

    /** `record_request` */
    method RecordRequest(tool: string, now: real)
      modifies this
      ensures usage == Recorded(old(usage), tool, now)
    {
      if tool !in usage {
        usage := usage[tool := []];
      }
      usage := usage[tool := usage[tool] + [now]];
    }

    /** `get_usage_stats`; it changes nothing. */
    method GetUsageStats(tool: string, windowSeconds: int, now: real) returns (stats: UsageStats)
      ensures stats == Stats(usage, tool, windowSeconds, now)
    {
      if tool !in usage {
        return UsageStats(0, 0.0, None);
      }
      var windowStart := now - windowSeconds as real;
      var recent := FilterAfter(usage[tool], windowStart);
      var n := |recent|;
      var rate := if windowSeconds > 0 then n as real / windowSeconds as real else 0.0;
      return UsageStats(n, rate, Some(windowSeconds));
    }

    /** `cleanup_old_data`: each tool's log, in turn, keeps only the times
        after `now - max_age_seconds`. */
    method CleanupOldData(maxAgeSeconds: int, now: real)
      modifies this
      ensures usage == Cleaned(old(usage), now - maxAgeSeconds as real)
    {
      var cutoff := now - maxAgeSeconds as real;
      ghost var before := usage;
      var pending := usage.Keys;
      while pending != {}
        invariant usage.Keys == before.Keys && pending <= usage.Keys
        invariant forall t :: t in pending ==> usage[t] == before[t]
        invariant forall t :: t in usage && t !in pending ==> usage[t] == Recent(before[t], cutoff)
        decreases pending
      {
        var tool :| tool in pending;
        var kept := FilterAfter(usage[tool], cutoff);
        usage := usage[tool := kept];
        pending := pending - {tool};
      }
      assert usage == Cleaned(before, cutoff);
    }
  }
}
