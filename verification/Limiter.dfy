/** Per-key token buckets with idle eviction. Times are seconds; tokens are exact reals. */
module Limiter {

  /** A bucket idle for longer than this is evicted by the cleanup. */
  const EXPIRY: real := 3600.0

  // ---------------------------------------------------------------- one bucket (rate.Limiter)

  datatype TokenBucket = TokenBucket(tokens: real, last: real, limit: real, burst: int)

  function Min(x: real, y: real): real { if x <= y then x else y }

  function Max(x: real, y: real): real { if x <= y then y else x }

  /** Tokens generated in `elapsed`; a rate that is not positive generates none. */
  function Refill(rate: real, elapsed: real): real {
    if rate <= 0.0 then 0.0 else rate * elapsed
  }

  /** The tokens at time t. */
  function Level(b: TokenBucket, t: real): real {
    Min(b.tokens + Refill(b.limit, Max(t - b.last, 0.0)), b.burst as real)
  }

  /** Take one token if there is one; a refusal changes nothing. */
  function Allow(b: TokenBucket, t: real): (TokenBucket, bool) {
    if Level(b, t) >= 1.0 then (b.(tokens := Level(b, t) - 1.0, last := t), true) else (b, false)
  }

  function SetLimit(b: TokenBucket, t: real, limit: real): TokenBucket {
    b.(tokens := Level(b, t), last := t, limit := limit)
  }

  function SetBurst(b: TokenBucket, t: real, burst: int): TokenBucket {
    b.(tokens := Level(b, t), last := t, burst := burst)
  }

  // ---------------------------------------------------------------- the manager on values

  datatype Bucket = Bucket(limiter: TokenBucket, rate: real, burst: int, lastRequest: real)

  type Buckets = map<string, Bucket>

  /** A new bucket is full. */
  function NewBucket(r: real, burst: int, t: real): Bucket {
    Bucket(TokenBucket(burst as real, t, r, burst), r, burst, t)
  }

  function Reconfigure(b: Bucket, r: real, burst: int, t: real): Bucket {
    if b.rate != r || b.burst != burst
    then Bucket(SetBurst(SetLimit(b.limiter, t, r), t, burst), r, burst, b.lastRequest)
    else b
  }

  function Request(b: Bucket, t: real): (Bucket, bool) {
    var (limiter, allowed) := Allow(b.limiter, t);
    (b.(limiter := limiter, lastRequest := if allowed then t else b.lastRequest), allowed)
  }

  function Check(m: Buckets, key: string, r: real, burst: int, t: real): (Buckets, bool) {
    var bucket := if key in m then Reconfigure(m[key], r, burst, t) else NewBucket(r, burst, t);
    var (bucket', allowed) := Request(bucket, t);
    (m[key := bucket'], allowed)
  }

  function Cleanup(m: Buckets, now: real): Buckets {
    map key | key in m && !(now - m[key].lastRequest > EXPIRY) :: m[key]
  }

  // ---------------------------------------------------------------- the manager

  class RateLimiter {
    var limiter: TokenBucket
    var rate: real
    var burst: int
    var lastRequest: real

    function Fields(): Bucket
      reads this
    {
      Bucket(limiter, rate, burst, lastRequest)
    }

    constructor (r: real, burst: int, now: real)
      ensures Fields() == NewBucket(r, burst, now)
    {
      limiter := TokenBucket(burst as real, now, r, burst);
      rate, this.burst, lastRequest := r, burst, now;
    }

    method Reconfigured(r: real, newBurst: int, now: real)
      modifies this
      ensures Fields() == Reconfigure(old(Fields()), r, newBurst, now)
    {
      if rate != r || burst != newBurst {
        rate := r;
        burst := newBurst;
        limiter := SetLimit(limiter, now, r);
        limiter := SetBurst(limiter, now, newBurst);
      }
    }

    method Requested(now: real) returns (allowed: bool)
      modifies this
      ensures (Fields(), allowed) == Request(old(Fields()), now)
    {
      var (after, ok) := Allow(limiter, now);
      limiter, allowed := after, ok;
      if allowed {
        lastRequest := now;
      }
    }
  }

  class RateLimitManager {
    var limiters: map<string, RateLimiter>

    ghost predicate Valid()
      reads this
    {
      forall j, k :: j in limiters && k in limiters && j != k ==> limiters[j] != limiters[k]
    }

    ghost function View(): Buckets
      reads this, limiters.Values
    {
      map k | k in limiters :: limiters[k].Fields()
    }

    constructor ()
      ensures Valid() && View() == map[]
    {
      limiters := map[];
      new;
      assert View() == map[];
    }

    method CheckLimit(key: string, r: real, burst: int, now: real) returns (allowed: bool)
      requires Valid()
      modifies this, limiters.Values
      ensures Valid() && (View(), allowed) == Check(old(View()), key, r, burst, now)
    {
      var bucket: RateLimiter;
      if key in limiters {
        bucket := limiters[key];
        bucket.Reconfigured(r, burst, now);
      } else {
        bucket := new RateLimiter(r, burst, now);
        limiters := limiters[key := bucket];
      }
      allowed := bucket.Requested(now);
      assert forall k :: k in old(limiters) && k != key ==> limiters[k].Fields() == old(limiters[k].Fields());
      assert View() == old(View())[key := bucket.Fields()];
    }

    method CleanupExpiredBuckets(now: real)
      requires Valid()
      modifies this
      ensures Valid() && View() == Cleanup(old(View()), now)
    {
      var before := limiters;
      var keys := limiters.Keys;
      while keys != {}
        invariant Valid() && keys <= before.Keys && limiters.Keys <= before.Keys
        invariant forall k :: k in limiters ==> limiters[k] == before[k]
        invariant forall k :: k in before ==>
                    (k in limiters <==> k in keys || !(now - before[k].lastRequest > EXPIRY))
        decreases |keys|
      {
        var key :| key in keys;
        if now - limiters[key].lastRequest > EXPIRY {
          limiters := limiters - {key};
        }
        keys := keys - {key};
      }
    }
  }
}
