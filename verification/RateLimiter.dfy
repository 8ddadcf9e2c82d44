/** The limiter's object: buckets updated in place, one key at a time. */
module RateLimiter {
  import opened Options
  import T = TokenBucket

  class Bucket {
    var tokens: real
    var last: real

    constructor (tokens: real, last: real)
      ensures this.tokens == tokens && this.last == last
    {
      this.tokens, this.last := tokens, last;
    }
  }

  class RateLimiter {
    const limits: string -> Option<real>
    var buckets: map<string, Bucket>

    constructor (limits: string -> Option<real>)
      ensures Valid() && this.limits == limits && buckets == map[]
    {
      this.limits, buckets := limits, map[];
    }

    /** A bucket a key, none shared. */
    ghost predicate Valid()
      reads this
    {
      forall i, j :: i in buckets && j in buckets && i != j ==> buckets[i] != buckets[j]
    }

    function State(id: string): Option<T.Bucket>
      reads this, buckets.Values
    {
      if id in buckets then Some(T.Bucket(buckets[id].tokens, buckets[id].last)) else None
    }

    /** Allow, with the clock's reading. The wait is in milliseconds. */
    method Allow(id: string, now: real) returns (ok: bool, wait: int)
      requires Valid()
      modifies this, buckets.Values
      ensures Valid() && (forall other :: other != id ==> State(other) == old(State(other)))
      ensures var rate := limits(id);
        if rate.None? || rate.value <= 0.0 then ok && wait == 0 && State(id) == old(State(id))
        else
          && State(id) == Some(T.After(old(State(id)), T.PerSecond(rate.value), now))
          && (ok <==> T.Allows(old(State(id)), T.PerSecond(rate.value), now))
          && wait == if ok then 0 else T.Wait(old(State(id)), rate.value, now)
    {
      var limit := limits(id);
      if limit.None? || limit.value <= 0.0 {
        return true, 0;
      }
      var rate := limit.value;
      var capacity := rate * T.BURST_FACTOR;
      if id !in buckets {
        var full := new Bucket(capacity, now);
        buckets := buckets[id := full];
      }
      var b := buckets[id];
      var elapsed := now - b.last;
      if elapsed > 0.0 {
        b.tokens := T.Min(capacity, b.tokens + elapsed * rate);
        b.last := now;
      }
      if b.tokens < 1.0 {
        return false, T.Ceil((1.0 - b.tokens) / rate * 1000.0);
      }
      b.tokens := b.tokens - 1.0;
      return true, 0;
    }

    method Forget(id: string)
      requires Valid()
      modifies this
      ensures Valid() && State(id) == None && (forall other :: other != id ==> State(other) == old(State(other)))
    {
      buckets := buckets - {id};
    }
  }
}
