/** The single-slot cache that keeps the last computed summary list for five
    minutes. The clock is not modelled: every operation that reads the time
    takes it as `now`, in milliseconds. */
module Cache {
  import opened Types

  class ReservationCache<T> {
    /** The stored value; `None` is `null`. */
    var cache: Option<T>
    /** When the value was stored; `None` is `null`. */
    var lastUpdated: Option<int>
    /** Five minutes, in milliseconds. */
    const CACHE_DURATION: int
    /** JavaScript truthiness of the values this cache is given: `get` treats
        a falsy stored value as absent. */
    const truthy: T -> bool

    constructor (truthy: T -> bool)
      ensures cache == None && lastUpdated == None
      ensures CACHE_DURATION == 300000 && this.truthy == truthy
    {
      this.truthy := truthy;
      cache := None;
      lastUpdated := None;
      CACHE_DURATION := 5 * 60 * 1000;
    }

    /** `!this.cache || !this.lastUpdated`: no usable value is held, either
        because none is stored, the stored one is falsy, or the timestamp is
        missing or 0. */
    predicate Absent()
      reads this
    {
      cache.None? || !truthy(cache.value) || lastUpdated.None? || lastUpdated.value == 0
    }

    /** Store `data`; expiry now counts from `now`. */
    method Set(data: T, now: int)
      modifies this
      ensures cache == Some(data) && lastUpdated == Some(now)
    {
      cache := Some(data);
      lastUpdated := Some(now);
    }

    /** The stored value while it is fresh. More than `CACHE_DURATION` after
        the last `Set` the cache clears itself and reports a miss; exactly
        `CACHE_DURATION` still counts as fresh. */
    method Get(now: int) returns (r: Option<T>)
      modifies this
      ensures old(Absent()) ==>
        r == None && cache == old(cache) && lastUpdated == old(lastUpdated)
      ensures !old(Absent()) && now - old(lastUpdated).value > CACHE_DURATION ==>
        r == None && cache == None && lastUpdated == None
      ensures !old(Absent()) && now - old(lastUpdated).value <= CACHE_DURATION ==>
        r == old(cache) && r.Some? && cache == old(cache) && lastUpdated == old(lastUpdated)
    {
      if cache.None? || !truthy(cache.value) || lastUpdated.None? || lastUpdated.value == 0 {
        return None;
      }
      if now - lastUpdated.value > CACHE_DURATION {
        Invalidate();
        return None;
      }
      return cache;
    }

    /** Drop the value and the timestamp, whatever their age. */
    method Invalidate()
      modifies this
      ensures cache == None && lastUpdated == None
    {
      cache := None;
      lastUpdated := None;
    }
  }

  /** A new cache misses, whatever the time. */
  method NewCacheMisses<T>(truthy: T -> bool, now: int) returns (r: Option<T>)
    ensures r == None
  {
    var c := new ReservationCache(truthy);
    r := c.Get(now);
  }

  /** After `Set(data)` at `t`, `Get` returns `data` exactly when at most five
      minutes have passed (a truthy value, stored at a non-zero time). */
  method FreshUntilFiveMinutes<T>(truthy: T -> bool, data: T, t: int, elapsed: int) returns (r: Option<T>)
    requires truthy(data) && t != 0
    ensures r == (if elapsed <= 300000 then Some(data) else None)
  {
    var c := new ReservationCache(truthy);
    c.Set(data, t);
    r := c.Get(t + elapsed);
  }

  /** A fresh `Get` changes nothing, so a second fresh `Get` hits again. */
  method FreshGetKeepsValue<T>(truthy: T -> bool, data: T, t: int, e1: int, e2: int)
    returns (r1: Option<T>, r2: Option<T>)
    requires truthy(data) && t != 0 && e1 <= 300000 && e2 <= 300000
    ensures r1 == Some(data) && r2 == Some(data)
  {
    var c := new ReservationCache(truthy);
    c.Set(data, t);
    r1 := c.Get(t + e1);
    r2 := c.Get(t + e2);
  }

  /** An expired `Get` clears the cache: a later `Get` misses even at a time
      that would have been fresh. */
  method ExpiryClears<T>(truthy: T -> bool, data: T, t: int, late: int, early: int)
    returns (r1: Option<T>, r2: Option<T>)
    requires truthy(data) && t != 0 && late > 300000
    ensures r1 == None && r2 == None
  {
    var c := new ReservationCache(truthy);
    c.Set(data, t);
    r1 := c.Get(t + late);
    r2 := c.Get(t + early);
  }

  /** After `Invalidate` the next `Get` misses, whatever the time. */
  method InvalidateMisses<T>(truthy: T -> bool, data: T, t: int, now: int) returns (r: Option<T>)
    ensures r == None
  {
    var c := new ReservationCache(truthy);
    c.Set(data, t);
    c.Invalidate();
    r := c.Get(now);
  }

  /** A second `Set` replaces the value and restarts the five minutes. */
  method SetRestartsExpiry<T>(truthy: T -> bool, first: T, second: T, t1: int, t2: int, now: int)
    returns (r: Option<T>)
    requires truthy(second) && t2 != 0
    ensures r == (if now - t2 <= 300000 then Some(second) else None)
  {
    var c := new ReservationCache(truthy);
    c.Set(first, t1);
    c.Set(second, t2);
    r := c.Get(now);
  }

  /** A falsy value reads as absent: `Get` misses. */
  method FalsyValueMisses<T>(truthy: T -> bool, data: T, t: int, now: int) returns (r: Option<T>)
    requires !truthy(data)
    ensures r == None
  {
    var c := new ReservationCache(truthy);
    c.Set(data, t);
    r := c.Get(now);
  }

  /** A value stored at time 0 reads as absent, since the timestamp 0 is
      falsy. */
  method ZeroTimestampMisses<T>(truthy: T -> bool, data: T, now: int) returns (r: Option<T>)
    ensures r == None
  {
    var c := new ReservationCache(truthy);
    c.Set(data, 0);
    r := c.Get(now);
  }
}
