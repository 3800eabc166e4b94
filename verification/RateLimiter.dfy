/** The fixed-window rate limiter (security/ratelimiter.go): a Redis counter with a time to live, and what
    it admits over whole timed runs.  Times are milliseconds of the Redis clock. */
module RateLimiter {
  import opened Types

  /** A live key, or none. */
  datatype Counter = Gone | Counter(count: nat, expiresAt: int)

  datatype Verdict = Verdict(key: Counter, allowed: bool, retry: int)

  /** How a key is found at a time: a key stops existing lag milliseconds after its expiry time (Redis
      promises an error of at most one). */
  function Lookup(k: Counter, now: int, lag: nat): Counter {
    if k.Counter? && now >= k.expiresAt + lag then Gone else k
  }

  /** One request against a limit that is positive. */
  function Hit(k: Counter, now: int, limit: int, window: int, lag: nat): Verdict {
    match Lookup(k, now, lag)
    case Gone => Verdict(if window > 0 then Counter(1, now + window) else Gone, 1 <= limit, 0)
    case Counter(c, e) => Verdict(Counter(c + 1, e), c + 1 <= limit, if c + 1 <= limit then 0 else Max(e - now, 0))
  }

  /** The counters a limiter leaves behind. */
  predicate Started(k: Counter) {
    k.Counter? ==> k.count > 0
  }

  class RedisRateLimiter {
    var keys: map<string, Counter>
    const lag: nat

    ghost predicate Valid()
      reads this
    {
      forall k :: k in keys ==> keys[k].Counter? && Started(keys[k])
    }

    constructor (expiryLag: nat)
      ensures Valid() && keys == map[] && lag == expiryLag
    {
      keys := map[];
      lag := expiryLag;
    }

    function Get(key: string): Counter
      reads this
    {
      if key in keys then keys[key] else Gone
    }

    /** INCR: the new value; a missing or expired key counts from zero and has no time to live yet. */
    method Incr(key: string, now: int) returns (current: nat)
      requires Valid()
      modifies this
      ensures Valid() && key in keys && keys[key].count == current
      ensures Lookup(old(Get(key)), now, lag) == Gone ==> current == 1
      ensures Lookup(old(Get(key)), now, lag) != Gone ==>
                current == old(Get(key)).count + 1 && keys[key].expiresAt == old(Get(key)).expiresAt
      ensures keys - {key} == old(keys) - {key}
    {
      var found := Lookup(Get(key), now, lag);
      current := if found.Gone? then 1 else found.count + 1;
      // without PEXPIRE the entry would never lapse; the script sets it before anything can look
      keys := keys[key := Counter(current, if found.Gone? then now else found.expiresAt)];
    }

    /** PEXPIRE: a time to live that is not positive deletes the key. */
    method PExpire(key: string, now: int, window: int)
      requires Valid() && key in keys
      modifies this
      ensures Valid()
      ensures keys == if window > 0 then old(keys)[key := Counter(old(keys)[key].count, now + window)] else old(keys) - {key}
    {
      if window > 0 {
        keys := keys[key := Counter(keys[key].count, now + window)];
      } else {
        keys := keys - {key};
      }
    }

    method Allow(key: string, limit: int, window: int, now: int) returns (allowed: bool, retry: int)
      requires Valid()
      modifies this
      ensures Valid() && keys - {key} == old(keys) - {key}
      ensures limit <= 0 ==> allowed && retry == 0 && keys == old(keys)
      ensures limit > 0 ==> Verdict(Get(key), allowed, retry) == Hit(old(Get(key)), now, limit, window, lag)
    {
      if limit <= 0 {
        return true, 0;
      }
      var current := Incr(key, now);
      if current == 1 {
        PExpire(key, now, window);
      }
      var ttl := if key in keys then Max(keys[key].expiresAt - now, 0) else -2;
      if current > limit {
        retry := ttl;
        if retry < 0 {
          retry := window;
        }
        return false, retry;
      }
      return true, 0;
    }
  }

  // ---- timed runs on one key -----------------------------------------------------------------------

  type pos = n: nat | n > 0 witness 1

  /** The parameters of a run: a key is always used with the same positive limit and window. */
  datatype Config = Config(limit: pos, window: pos, lag: nat)

  predicate Sorted(times: seq<int>) {
    forall i, j :: 0 <= i < j < |times| ==> times[i] <= times[j]
  }

  /** The key after the requests of a run. */
  function After(times: seq<int>, c: Config): Counter {
    if |times| == 0 then Gone else Hit(After(times[..|times| - 1], c), times[|times| - 1], c.limit, c.window, c.lag).key
  }

  predicate AllowedAt(times: seq<int>, i: nat, c: Config)
    requires i < |times|
  {
    Hit(After(times[..i], c), times[i], c.limit, c.window, c.lag).allowed
  }

  /** The request that created the key request i runs into: its lifetime starts there. */
  function Birth(times: seq<int>, i: nat, c: Config): (b: nat)
    requires i < |times|
    ensures b <= i
  {
    if i == 0 || Lookup(After(times[..i], c), times[i], c.lag).Gone? then i else Birth(times, i - 1, c)
  }

  /** The counter is the rank of the request in its lifetime, and the lifetime is one window long. */
  lemma {:induction false} CounterIsRank(times: seq<int>, i: nat, c: Config)
    requires i < |times|
    ensures After(times[..i + 1], c) == Counter(i - Birth(times, i, c) + 1, times[Birth(times, i, c)] + c.window)
    ensures Birth(times, Birth(times, i, c), c) == Birth(times, i, c)
  {
    assert times[..i + 1][..i] == times[..i];
    if i > 0 {
      CounterIsRank(times, i - 1, c);
    }
  }

  /** A request is admitted exactly when it is among the first limit requests of its key lifetime. */
  lemma AllowedIffEarly(times: seq<int>, i: nat, c: Config)
    requires i < |times|
    ensures AllowedAt(times, i, c) <==> i - Birth(times, i, c) < c.limit
  {
    if i > 0 {
      CounterIsRank(times, i - 1, c);
    }
  }

  /** A request either joins the lifetime of the one before it, or comes after that lifetime ended. */
  lemma NextBirth(times: seq<int>, j: nat, c: Config)
    requires 0 < j < |times|
    ensures var b, a := Birth(times, j, c), Birth(times, j - 1, c);
      b == a || (b == j && times[j] >= times[a] + c.window + c.lag)
  {
    CounterIsRank(times, j - 1, c);
  }

  /** Within a lifetime births agree, and a lifetime ends one window (and lag) after it began. */
  lemma {:induction false} BirthsGrow(times: seq<int>, i: nat, j: nat, c: Config)
    requires i <= j < |times|
    ensures var b, a := Birth(times, j, c), Birth(times, i, c);
      b == a || (b > i && times[b] >= times[a] + c.window + c.lag)
    decreases j
  {
    if i < j {
      NextBirth(times, j, c);
      BirthsGrow(times, i, j - 1, c);
    }
  }

  function CountAllowed(times: seq<int>, lo: nat, hi: nat, c: Config): nat
    requires lo <= hi <= |times|
  {
    if lo == hi then 0 else CountAllowed(times, lo, hi - 1, c) + if AllowedAt(times, hi - 1, c) then 1 else 0
  }

  lemma {:induction false} CountSplit(times: seq<int>, lo: nat, mid: nat, hi: nat, c: Config)
    requires lo <= mid <= hi <= |times|
    ensures CountAllowed(times, lo, hi, c) == CountAllowed(times, lo, mid, c) + CountAllowed(times, mid, hi, c)
  {
    if mid < hi {
      CountSplit(times, lo, mid, hi - 1, c);
    }
  }

  /** Requests lo to hi of one lifetime: at most limit are admitted from its start on. */
  lemma {:induction false} LifetimeBound(times: seq<int>, lo: nat, hi: nat, b: nat, c: Config)
    requires b <= lo <= hi <= |times|
    requires forall i :: lo <= i < hi ==> Birth(times, i, c) == b
    ensures CountAllowed(times, lo, hi, c) <= Max(0, Min(hi, b + c.limit) - lo)
  {
    if lo < hi {
      LifetimeBound(times, lo, hi - 1, b, c);
      AllowedIffEarly(times, hi - 1, c);
    }
  }

  /** Every key lifetime admits at most limit requests. */
  lemma LimitPerLifetime(times: seq<int>, lo: nat, hi: nat, b: nat, c: Config)
    requires lo <= hi <= |times|
    requires forall i :: lo <= i < hi ==> Birth(times, i, c) == b
    ensures CountAllowed(times, lo, hi, c) <= c.limit
  {
    if lo < hi {
      assert Birth(times, lo, c) <= lo;
      LifetimeBound(times, lo, hi, b, c);
    }
  }

  /** Two requests less than a window apart: the later one shares the lifetime of the earlier, or starts
      its own after it, the earlier one's lifetime having started before the earlier request. */
  lemma CloseBirths(times: seq<int>, i: nat, j: nat, c: Config)
    requires Sorted(times) && i <= j < |times| && times[j] < times[i] + c.window
    ensures var b, a := Birth(times, j, c), Birth(times, i, c); b == a || (b > i && a < i)
  {
    BirthsGrow(times, i, j, c);
    var b := Birth(times, j, c);
    assert times[b] <= times[j];
  }

  /** The births of requests less than a window apart take at most two values, the second being the index
      where it starts. */
  lemma {:induction false} TwoValues(b: seq<nat>, lo: nat, hi: nat) returns (mid: nat)
    requires lo < hi <= |b| && forall i :: 0 <= i < |b| ==> b[i] <= i
    requires forall i :: lo < i < hi ==> b[i] == b[i - 1] || b[i] == i
    requires forall i, j :: lo <= i <= j < hi ==> b[j] == b[i] || (b[j] > i && b[i] < i)
    ensures lo < mid <= hi
    ensures forall i :: lo <= i < mid ==> b[i] == b[lo]
    ensures forall i :: mid <= i < hi ==> b[i] == mid
    ensures mid < hi ==> b[lo] < lo
    decreases hi
  {
    if hi == lo + 1 {
      return hi;
    }
    mid := TwoValues(b, lo, hi - 1);
    assert b[hi - 1] == b[hi - 2] || b[hi - 1] == hi - 1;
    if mid < hi - 1 {
      assert b[hi - 1] == b[mid];
    } else if b[hi - 1] == b[lo] {
      mid := hi;
    } else {
      assert b[hi - 1] > lo && b[lo] < lo;
    }
  }

  /** The requests of an interval fall into at most two lifetimes. */
  lemma SecondLifetime(times: seq<int>, lo: nat, hi: nat, c: Config) returns (mid: nat)
    requires Sorted(times) && lo < hi <= |times| && times[hi - 1] < times[lo] + c.window
    ensures lo < mid <= hi
    ensures forall i :: lo <= i < mid ==> Birth(times, i, c) == Birth(times, lo, c)
    ensures forall i :: mid <= i < hi ==> Birth(times, i, c) == mid
    ensures mid < hi ==> Birth(times, lo, c) < lo
  {
    var b := seq(|times|, i requires 0 <= i < |times| => Birth(times, i, c));
    forall i | lo < i < hi ensures b[i] == b[i - 1] || b[i] == i {
      NextBirth(times, i, c);
    }
    forall i, j | lo <= i <= j < hi ensures b[j] == b[i] || (b[j] > i && b[i] < i) {
      assert times[j] <= times[hi - 1] && times[lo] <= times[i];
      CloseBirths(times, i, j, c);
    }
    mid := TwoValues(b, lo, hi);
    forall i | lo <= i < mid ensures Birth(times, i, c) == Birth(times, lo, c) {
      assert b[i] == b[lo];
    }
    forall i | mid <= i < hi ensures Birth(times, i, c) == mid {
      assert b[i] == mid;
    }
    assert b[lo] == Birth(times, lo, c);
  }

  /** Any half-open interval as long as the window admits fewer than twice the limit: a lifetime that
      reaches into the interval without starting there has already spent one request outside it. */
  lemma LimitPerInterval(times: seq<int>, lo: nat, hi: nat, start: int, c: Config)
    requires Sorted(times) && lo <= hi <= |times|
    requires forall i :: lo <= i < hi ==> start <= times[i] < start + c.window
    ensures CountAllowed(times, lo, hi, c) <= 2 * c.limit - 1
  {
    if lo < hi {
      var mid := SecondLifetime(times, lo, hi, c);
      CountSplit(times, lo, mid, hi, c);
      LifetimeBound(times, lo, mid, Birth(times, lo, c), c);
      if mid < hi {
        LifetimeBound(times, mid, hi, mid, c);
      }
    }
  }

  /** A run that spends its limits around the end of a lifetime: one request at 0, the others of the first
      lifetime in its last millisecond, and a whole limit in the next one. */
  function Burst(c: Config): seq<int>
  {
    seq(2 * c.limit, i => if i == 0 then 0 else if i < c.limit then c.window + c.lag - 1 else c.window + c.lag)
  }

  lemma {:induction false} BurstBirths(c: Config, i: nat)
    requires i < 2 * c.limit
    ensures Birth(Burst(c), i, c) == if i < c.limit then 0 else c.limit
  {
    if i > 0 {
      BurstBirths(c, i - 1);
      CounterIsRank(Burst(c), i - 1, c);
    }
  }

  lemma {:induction false} AllAllowed(times: seq<int>, lo: nat, hi: nat, c: Config)
    requires lo <= hi <= |times| && forall i :: lo <= i < hi ==> AllowedAt(times, i, c)
    ensures CountAllowed(times, lo, hi, c) == hi - lo
  {
    if lo < hi {
      AllAllowed(times, lo, hi - 1, c);
    }
  }

  /** The bound is reached, for every limit, every lag and every window of two milliseconds or more. */
  lemma BoundReached(c: Config)
    requires c.window > 1
    ensures var times := Burst(c); var start := c.window + c.lag - 1;
      && |times| == 2 * c.limit && Sorted(times) && (forall i :: 1 <= i < 2 * c.limit ==> start <= times[i] < start + c.window)
      && CountAllowed(times, 1, 2 * c.limit, c) == 2 * c.limit - 1
  {
    var times := Burst(c);
    forall i | 1 <= i < 2 * c.limit ensures AllowedAt(times, i, c) {
      BurstBirths(c, i);
      AllowedIffEarly(times, i, c);
    }
    AllAllowed(times, 1, 2 * c.limit, c);
  }

  /** A request that did not create its key found it alive. */
  lemma FoundAlive(times: seq<int>, i: nat, c: Config)
    requires i < |times| && Birth(times, i, c) < i
    ensures times[i] < times[Birth(times, i, c)] + c.window + c.lag
  {
    CounterIsRank(times, i - 1, c);
  }

  /** With a window of one millisecond there is no such overlap: a millisecond admits at most limit. */
  lemma LimitPerMillisecond(times: seq<int>, lo: nat, hi: nat, start: int, c: Config)
    requires c.window == 1 && Sorted(times) && lo <= hi <= |times|
    requires forall i :: lo <= i < hi ==> times[i] == start
    ensures CountAllowed(times, lo, hi, c) <= c.limit
  {
    if lo < hi {
      var mid := SecondLifetime(times, lo, hi, c);
      if mid < hi {
        FoundAlive(times, lo, c);
        NextBirth(times, mid, c);
      } else {
        LifetimeBound(times, lo, hi, Birth(times, lo, c), c);
      }
    }
  }

  // ---- waiting -------------------------------------------------------------------------------------

  /** A denied caller learns exactly how long to wait: if nobody else uses the key meanwhile, waiting for
      the returned duration and the expiry lag is enough, and without a lag nothing less is. */
  lemma WaitingPays(times: seq<int>, i: nat, c: Config, wait: nat)
    requires Sorted(times) && i < |times| && !AllowedAt(times, i, c)
    ensures var v := Hit(After(times[..i], c), times[i], c.limit, c.window, c.lag);
      var again := Hit(v.key, times[i] + wait, c.limit, c.window, c.lag);
      && 0 <= v.retry <= c.window
      && (again.allowed <==> times[i] + wait >= v.key.expiresAt + c.lag)
      && (wait >= v.retry + c.lag ==> again.allowed)
      && (c.lag == 0 ==> (again.allowed <==> wait >= v.retry))
  {
    CounterIsRank(times, i, c);
    assert times[..i + 1][..i] == times[..i];
    AllowedIffEarly(times, i, c);
  }

  /** The Retry-After header: whole seconds, at least one. */
  function RetryAfterSeconds(retryMs: nat): nat {
    if retryMs / 1000 < 1 then 1 else retryMs / 1000
  }

  /** The header truncates, so it promises enough only for whole seconds and for less than one. */
  lemma HeaderSuffices(retryMs: nat)
    ensures RetryAfterSeconds(retryMs) * 1000 >= retryMs <==> retryMs < 1000 || retryMs % 1000 == 0
    ensures retryMs < 1000 ==> RetryAfterSeconds(retryMs) == 1
    ensures retryMs >= 1000 ==> 0 <= retryMs - RetryAfterSeconds(retryMs) * 1000 < 1000
  {
    var q, r := retryMs / 1000, retryMs % 1000;
    assert retryMs == q * 1000 + r;
  }

  /** And it does fall short: a second request within a minute of the first, half a second after it, is told to
      wait 59 seconds, and is denied again when it does. */
  lemma HeaderFallsShort()
    ensures var c := Config(1, 60000, 0); var times := [0, 500];
      var v := Hit(After([0], c), 500, c.limit, c.window, c.lag);
      && !AllowedAt(times, 1, c) && v.retry == 59500 && RetryAfterSeconds(v.retry) == 59
      && !Hit(v.key, 500 + 59000, c.limit, c.window, c.lag).allowed
  {
    var c := Config(1, 60000, 0);
    assert [0][..0] == [] && [0, 500][..1] == [0];
    assert After([], c) == Gone;
    assert After([0], c) == Counter(1, 60000);
  }
}
