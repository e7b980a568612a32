/**
 * The fixed-window rate limiter (src/api/ratelimit/ratelimit.go): one counter
 * per client and minute, incremented on every request.
 */
module RateLimit {
  import opened Wrappers
  import opened RedisStore
  import opened IntRanges

  const RateLimitPerMinute := 100
  const WindowTtlSeconds := 120

  /** A minute window, formatted YYYYMMDDhhmm (always twelve characters). */
  type Window = w: string | |w| == 12 witness "000000000000"

  /** The counter key rl:<client>:<window>. */
  function CounterKey(clientID: string, window: Window): string
  {
    "rl:" + clientID + ":" + window
  }

  /** Different clients or different minutes never share a counter. */
  lemma CounterKeyInjective(c1: string, w1: Window, c2: string, w2: Window)
    ensures CounterKey(c1, w1) == CounterKey(c2, w2) <==> c1 == c2 && w1 == w2
  {
    if CounterKey(c1, w1) == CounterKey(c2, w2) {
      var k := CounterKey(c1, w1);
      assert |c1| == |c2|;
      assert c1 == k[3..3 + |c1|];
      assert c2 == CounterKey(c2, w2)[3..3 + |c2|];
      assert w1 == k[|k| - 12..];
      assert w2 == CounterKey(c2, w2)[|k| - 12..];
    }
  }

  function Count(counters: map<string, int>, key: string): int
  {
    if key in counters then counters[key] else 0
  }

  predicate Allowed(count: int)
  {
    count <= RateLimitPerMinute
  }

  function Remaining(count: int): int
  {
    if RateLimitPerMinute - count < 0 then 0 else RateLimitPerMinute - count
  }

  /** Remaining never goes negative and falls by one per call until it is 0;
      the 100th call is still allowed, with nothing remaining, and the 101st is
      refused. */
  lemma RemainingSchedule(count: int)
    ensures Remaining(count) >= 0
    ensures count < RateLimitPerMinute ==> Remaining(count + 1) == Remaining(count) - 1
    ensures count >= RateLimitPerMinute ==> Remaining(count + 1) == 0
    ensures Allowed(100) && Remaining(100) == 0 && !Allowed(101)
  {
  }

  /** Among the calls numbered 1..n of one window, exactly min(n, 100) are
      allowed: the first hundred. */
  lemma AllowedCalls(n: nat)
    ensures |set k | 1 <= k <= n && Allowed(k)| == if n < RateLimitPerMinute then n else RateLimitPerMinute
  {
    var m := if n < RateLimitPerMinute then n else RateLimitPerMinute;
    assert (set k | 1 <= k <= n && Allowed(k)) == Range(1, m + 1);
    RangeSize(1, m + 1);
  }

  /** One request of clientID in window: increments its counter (the first
      request of a window also sets a two-minute expiry) and decides. */
  method Allow(rc: Redis, clientID: string, window: Window, incrFault: bool, expireFault: bool)
    returns (allowed: bool, remaining: int, err: Option<RedisError>)
    modifies rc`counters, rc`expiry
    ensures incrFault ==>
              !allowed && remaining == 0 && err == Some(ConnError)
              && rc.counters == old(rc.counters) && rc.expiry == old(rc.expiry)
    ensures !incrFault ==>
              var key := CounterKey(clientID, window);
              var count := Count(old(rc.counters), key) + 1;
              && rc.counters == old(rc.counters)[key := count]
              && allowed == Allowed(count) && remaining == Remaining(count) && err == None
              && rc.expiry == (if count == 1 && !expireFault then old(rc.expiry)[key := WindowTtlSeconds]
                               else old(rc.expiry))
  {
    var key := CounterKey(clientID, window);
    var incr := rc.Incr(key, incrFault);
    if incr.Failure? {
      return false, 0, Some(incr.error);
    }
    var count := incr.value;
    if count == 1 {
      var _ := rc.Expire(key, WindowTtlSeconds, expireFault);
    }
    remaining := RateLimitPerMinute - count;
    if remaining < 0 {
      remaining := 0;
    }
    allowed := count <= RateLimitPerMinute;
    err := None;
  }
}
