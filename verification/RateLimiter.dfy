/** RateLimiter of internal/middleware/ratelimit.go as a class over mutable per-IP buckets. */
module RateLimiters {
  import opened Basics
  import TokenBucket
  import RateLimits

  class IPBucket {
    var tokens: real
    var lastSeen: real

    constructor (tokens: real, lastSeen: real)
      ensures View() == TokenBucket.Bucket(tokens, lastSeen)
    {
      this.tokens, this.lastSeen := tokens, lastSeen;
    }

    function View(): TokenBucket.Bucket
      reads this
    {
      TokenBucket.Bucket(tokens, lastSeen)
    }

    /** Refill, then take a token if there is a whole one. */
    method Take(c: TokenBucket.Config, now: real) returns (ok: bool)
      modifies this
      ensures (View(), ok) == TokenBucket.Call(c, old(View()), now)
    {
      var elapsed := now - lastSeen;
      assert elapsed * c.rps == TokenBucket.Gain(c, lastSeen, now);
      lastSeen := now;
      tokens := tokens + elapsed * c.rps;
      if tokens > c.burst as real {
        tokens := c.burst as real;
      }
      if tokens >= 1.0 {
        tokens := tokens - 1.0;
        return true;
      }
      return false;
    }
  }

  class RateLimiter {
    const config: TokenBucket.Config
    var buckets: map<string, IPBucket>

    /** Every IP has a bucket object of its own, and refill never goes backwards. */
    ghost predicate Valid()
      reads this
    {
      config.rps >= 0.0 &&
      forall ip, other :: ip in buckets && other in buckets && buckets[ip] == buckets[other] ==> ip == other
    }

    function View(): map<string, TokenBucket.Bucket>
      reads this, buckets.Values
    {
      map ip | ip in buckets :: buckets[ip].View()
    }

    constructor (rps: real, burst: int, cleanupAfter: real)
      requires rps >= 0.0
      ensures Valid() && View() == map[] && config == TokenBucket.Config(rps, burst, cleanupAfter)
      ensures fresh(buckets.Values)
    {
      config := TokenBucket.Config(rps, burst, cleanupAfter);
      buckets := map[];
    }

    /** `created` is the reading of the clock when a bucket is made, `now` the later one of the refill. */
    method Allow(ip: string, created: real, now: real) returns (ok: bool)
      requires Valid() && created <= now
      modifies this, buckets.Values
      ensures Valid() && fresh(buckets.Values - old(buckets.Values))
      ensures View() == RateLimits.Step(config, old(View()), RateLimits.Allow(ip, now))
      ensures ok == TokenBucket.CallIP(config, Lookup(old(View()), ip), now).1
    {
      ghost var before := View();
      var b: IPBucket;
      if ip in buckets {
        b := buckets[ip];
      } else {
        b := new IPBucket(config.burst as real, created);
        buckets := buckets[ip := b];
        FreshBucketIsFull(config, created, now);
      }
      ok := b.Take(config, now);
      assert View() == before[ip := b.View()];
    }

    method RetryAfterSeconds(ip: string) returns (secs: int)
      requires Valid()
      ensures secs == RateLimits.RetryAfterSeconds(config, Lookup(View(), ip))
    {
      if config.rps <= 0.0 {
        return 60;
      }
      if ip !in buckets || buckets[ip].tokens >= 1.0 {
        return 0;
      }
      var need := 1.0 - buckets[ip].tokens;
      RateLimits.StrictProduct(1.0, config.rps);
      secs := RateLimits.Truncate(need / config.rps) + 1;
    }

    /** The background loop over the map, deleting as it goes. */
    method Cleanup(now: real)
      requires Valid()
      modifies this
      ensures Valid() && buckets.Values <= old(buckets.Values)
      ensures View() == RateLimits.Step(config, old(View()), RateLimits.Cleanup(now))
      ensures forall ip :: ip in buckets <==>
                ip in old(buckets) && old(buckets[ip].lastSeen) >= now - config.cleanupAfter
    {
      var cutoff := now - config.cleanupAfter;
      var todo := buckets.Keys;
      while todo != {}
        invariant todo <= buckets.Keys <= old(buckets).Keys
        invariant forall ip :: ip in buckets ==> buckets[ip] == old(buckets)[ip]
        invariant forall ip :: ip in old(buckets) && ip !in todo ==>
                    (ip in buckets <==> !RateLimits.Stale(config, old(buckets)[ip].View(), now))
        decreases todo
      {
        var ip :| ip in todo;
        if buckets[ip].lastSeen < cutoff {
          buckets := buckets - {ip};
        }
        todo := todo - {ip};
      }
    }
  }

  /** The bucket made by a first call is full when the call refills it, however late that is. */
  lemma FreshBucketIsFull(c: TokenBucket.Config, created: real, now: real)
    requires c.rps >= 0.0 && created <= now
    ensures TokenBucket.Call(c, TokenBucket.Bucket(c.burst as real, created), now) == TokenBucket.CallIP(c, None, now)
  {
    TokenBucket.GainNonNegative(c, created, now);
    TokenBucket.GainNonNegative(c, now, now);
  }
}
