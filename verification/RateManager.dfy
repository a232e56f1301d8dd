/**
 The rate manager: one token bucket per key, changed in place under one lock. Every call is proved to
 do to the bucket of its key what RateLimits says, and nothing to any other bucket.
*/
module RateManager {
  import opened RateLimits

  class Bucket {
    var maxConcurrent: int
    var maxRps: real
    var current: int
    var highPriority: int
    var tokens: real
    var lastRefill: Time
    var lastSuccess: Time
    var backoff: int

    /** A zeroed allocation. */
    constructor ()
      ensures Value() == Limit(0, 0.0, 0, 0, 0.0, 0, 0, 0)
    {
      maxConcurrent, maxRps, current, highPriority := 0, 0.0, 0, 0;
      tokens, lastRefill, lastSuccess, backoff := 0.0, 0, 0, 0;
    }

    ghost function Value(): Limit
      reads this
    {
      Limit(maxConcurrent, maxRps, current, highPriority, tokens, lastRefill, lastSuccess, backoff)
    }

    method Configure(newConcurrent: int, newRps: real, now: Time)
      modifies this
      ensures Value() == Configured(old(Value()), newConcurrent, newRps, now)
    {
      maxConcurrent := newConcurrent;
      maxRps := newRps;
      tokens := newRps;
      lastRefill := now;
      lastSuccess := now;
      backoff := 1;
    }

    method RefillTo(now: Time)
      modifies this`tokens, this`lastRefill
      ensures Value() == Refill(old(Value()), now)
    {
      var elapsed := Seconds(lastRefill, now);
      tokens := Least(maxRps, tokens + elapsed * maxRps);
      lastRefill := now;
    }

    /** The wait for the next token, cast to an integer. */
    method Wait() returns (answer: nat)
      ensures CastAnswer(Value(), answer)
    {
      if maxRps != 0.0 {
        var wait := (1.0 - tokens) / maxRps * NANOS as real;
        if -1.0 < wait < CAST_LIMIT {
          return if wait < 0.0 then 0 else wait.Floor;
        }
      }
      answer := *;
    }
  }

  class Manager {
    // g_rate_manager is set up
    var ready: bool
    var limits: map<string, Bucket>

    constructor ()
      ensures Valid() && Contents() == map[]
    {
      ready, limits := false, map[];
    }

    ghost predicate Valid()
      reads this
    {
      && (forall k, j :: k in limits && j in limits && k != j ==> limits[k] != limits[j])
      && (!ready ==> limits == map[])
    }

    ghost function Contents(): map<string, Limit>
      reads this, limits.Values
    {
      map k | k in limits :: limits[k].Value()
    }

    /** Find the bucket of `key`, or add a zeroed one. */
    method FindOrAdd(key: string) returns (l: Bucket)
      requires Valid()
      modifies this
      ensures Valid() && ready && key in limits && l == limits[key]
      ensures if key in old(limits) then limits == old(limits) else limits == old(limits)[key := l] && fresh(l)
      ensures key !in old(limits) ==> l.Value() == Limit(0, 0.0, 0, 0, 0.0, 0, 0, 0)
    {
      ready := true;
      if key !in limits {
        l := new Bucket();
        limits := limits[key := l];
      }
      l := limits[key];
    }

    /** rate_manager_set_limit. */
    method SetLimit(key: string, maxConcurrent: int, maxRps: real, now: Time)
      requires Valid()
      modifies this, limits.Values
      ensures Valid() && ready
      ensures var before := if key in old(Contents()) then old(Contents())[key] else Limit(0, 0.0, 0, 0, 0.0, 0, 0, 0);
        Contents() == old(Contents())[key := Configured(before, maxConcurrent, maxRps, now)]
    {
      var l := FindOrAdd(key);
      l.Configure(maxConcurrent, maxRps, now);
    }

    /** rate_manager_can_proceed: 0 to go ahead, or the nanoseconds to wait. */
    method CanProceed(key: string, high: bool, now: Time) returns (wait: nat)
      requires Valid()
      modifies limits.Values
      ensures Valid()
      ensures key !in old(Contents()) ==> wait == 0 && Contents() == old(Contents())
      ensures key in old(Contents()) ==>
        && Contents() == old(Contents())[key := Polled(old(Contents())[key], high, now)]
        && (Grants(Contents()[key], high) ==> wait == 0)
        && (!Grants(Contents()[key], high) ==> CastAnswer(Contents()[key], wait))
    {
      if !ready || key !in limits {
        return 0;
      }
      var l := limits[key];
      l.RefillTo(now);
      if high {
        if l.tokens >= 1.0 {
          return 0;
        }
        l.highPriority := l.highPriority + 1;
        wait := l.Wait();
        return;
      }
      if l.tokens >= 1.0 && l.highPriority == 0 {
        return 0;
      }
      wait := l.Wait();
    }

    /** rate_manager_start_request: 0 when started, or the nanoseconds to wait. */
    method StartRequest(key: string, high: bool, now: Time) returns (wait: nat)
      requires Valid()
      modifies limits.Values
      ensures Valid()
      ensures key !in old(Contents()) ==> wait == 0 && Contents() == old(Contents())
      ensures key in old(Contents()) ==>
        && Contents() == old(Contents())[key := Started(old(Contents())[key], high, now)]
        && (Debits(old(Contents())[key], Start(high, now)) ==> wait == 0)
        && (!Debits(old(Contents())[key], Start(high, now)) ==> CastAnswer(Contents()[key], wait))
    {
      if !ready || key !in limits {
        return 0;
      }
      var l := limits[key];
      l.RefillTo(now);
      if high || (l.highPriority == 0 && l.tokens >= 1.0) {
        if l.tokens >= 1.0 {
          l.tokens := l.tokens - 1.0;
          l.current := l.current + 1;
          if high && l.highPriority > 0 {
            l.highPriority := l.highPriority - 1;
          }
          return 0;
        }
      }
      wait := l.Wait();
    }

    /** rate_manager_request_done. */
    method RequestDone(key: string, now: Time)
      requires Valid()
      modifies limits.Values
      ensures Valid()
      ensures Contents() == if key in old(Contents())
        then old(Contents())[key := Finished(old(Contents())[key], now)] else old(Contents())
    {
      if ready && key in limits {
        var l := limits[key];
        if l.current > 0 {
          l.current := l.current - 1;
        }
        l.lastSuccess := now;
        l.backoff := 1;
      }
    }

    /** rate_manager_handle_429: the seconds to back off. */
    method Handle429(key: string, now: Time) returns (backoff: int)
      requires Valid()
      modifies limits.Values
      ensures Valid()
      ensures key !in old(Contents()) ==> backoff == 0 && Contents() == old(Contents())
      ensures key in old(Contents()) ==>
        && Contents() == old(Contents())[key := TooMany(old(Contents())[key], now)]
        && backoff == Contents()[key].backoff
    {
      if !ready || key !in limits {
        return 0;
      }
      var l := limits[key];
      if l.current > 0 {
        l.current := l.current - 1;
      }
      if Seconds(l.lastSuccess, now) < 2.0 {
        l.backoff := 1;
      } else {
        l.backoff := if l.backoff * 2 <= 60 then l.backoff * 2 else 60;
      }
      backoff := l.backoff;
    }
  }
}
