/**
 One token bucket of the rate manager: what each call does to it, and what it promises over whole
 runs of calls. Tokens are real numbers and time is in integer nanoseconds.
*/
module RateLimits {

  type Time = int

  const NANOS := 1_000_000_000
  const CAST_LIMIT := 18_446_744_073_709_551_616.0

  datatype Limit = Limit(
    maxConcurrent: int, maxRps: real, current: int, highPriority: int,
    tokens: real, lastRefill: Time, lastSuccess: Time, backoff: int)

  function Seconds(from: Time, to: Time): real {
    (to - from) as real / NANOS as real
  }

  function Least(a: real, b: real): real {
    if a <= b then a else b
  }

  /** rate_manager_set_limit on a limit that may exist already. */
  function Configured(l: Limit, maxConcurrent: int, maxRps: real, now: Time): Limit {
    l.(maxConcurrent := maxConcurrent, maxRps := maxRps, tokens := maxRps, lastRefill := now, lastSuccess := now,
       backoff := 1)
  }

  function Refill(l: Limit, now: Time): Limit {
    l.(tokens := Least(l.maxRps, l.tokens + Seconds(l.lastRefill, now) * l.maxRps), lastRefill := now)
  }

  /** A token is there, and nobody with precedence waits for it. */
  predicate Grants(l: Limit, high: bool) {
    l.tokens >= 1.0 && (high || l.highPriority == 0)
  }

  /** rate_manager_can_proceed. */
  function Polled(l: Limit, high: bool, now: Time): Limit {
    var r := Refill(l, now);
    if high && r.tokens < 1.0 then r.(highPriority := r.highPriority + 1) else r
  }

  function Debited(l: Limit, high: bool): Limit {
    l.(tokens := l.tokens - 1.0, current := l.current + 1,
       highPriority := if high && l.highPriority > 0 then l.highPriority - 1 else l.highPriority)
  }

  /** rate_manager_start_request. */
  function Started(l: Limit, high: bool, now: Time): Limit {
    var r := Refill(l, now);
    if Grants(r, high) then Debited(r, high) else r
  }

  function Returned(l: Limit): Limit {
    l.(current := if l.current > 0 then l.current - 1 else l.current)
  }

  /** rate_manager_request_done. */
  function Finished(l: Limit, now: Time): Limit {
    Returned(l).(lastSuccess := now, backoff := 1)
  }

  /** rate_manager_handle_429; the answer is the new backoff. */
  function TooMany(l: Limit, now: Time): Limit {
    Returned(l).(backoff := if now - l.lastSuccess < 2 * NANOS then 1
                            else if l.backoff * 2 <= 60 then l.backoff * 2 else 60)
  }

  /** The nanoseconds until a whole token, as computed before the cast. */
  function WaitFor(l: Limit): real
    requires l.maxRps != 0.0
  {
    (1.0 - l.tokens) / l.maxRps * NANOS as real
  }

  /** The cast to uint64_t drops the fraction; outside its range C leaves the result open. */
  predicate CastAnswer(l: Limit, answer: nat) {
    l.maxRps != 0.0 && -1.0 < WaitFor(l) < CAST_LIMIT ==> answer == if WaitFor(l) < 0.0 then 0 else WaitFor(l).Floor
  }

  // ----- runs

  datatype Call =
    | Poll(high: bool, at: Time)
    | Start(high: bool, at: Time)
    | Done(at: Time)
    | Refuse(at: Time)

  function After(l: Limit, c: Call): Limit {
    match c
    case Poll(high, at) => Polled(l, high, at)
    case Start(high, at) => Started(l, high, at)
    case Done(at) => Finished(l, at)
    case Refuse(at) => TooMany(l, at)
  }

  function Final(l: Limit, calls: seq<Call>): Limit
    decreases calls
  {
    if calls == [] then l else Final(After(l, calls[0]), calls[1..])
  }

  /** The call takes a token. */
  predicate Debits(l: Limit, c: Call) {
    c.Start? && Grants(Refill(l, c.at), c.high)
  }

  function CountDebits(l: Limit, calls: seq<Call>): nat
    decreases calls
  {
    if calls == [] then 0 else (if Debits(l, calls[0]) then 1 else 0) + CountDebits(After(l, calls[0]), calls[1..])
  }

  /** The clock never goes back, starting from `from`. */
  predicate Ordered(from: Time, calls: seq<Call>)
    decreases calls
  {
    calls == [] || (from <= calls[0].at && Ordered(calls[0].at, calls[1..]))
  }

  predicate Sane(l: Limit) {
    l.maxRps > 0.0 && 0.0 <= l.tokens <= l.maxRps
  }

  // ----- tokens

  lemma RefillSane(l: Limit, now: Time)
    requires Sane(l) && l.lastRefill <= now
    ensures Sane(Refill(l, now)) && l.tokens <= Refill(l, now).tokens
  {
    assert Seconds(l.lastRefill, now) * l.maxRps >= 0.0;
  }

  lemma CallSane(l: Limit, c: Call)
    requires Sane(l) && l.lastRefill <= c.at
    ensures Sane(After(l, c)) && After(l, c).lastRefill <= c.at && After(l, c).maxRps == l.maxRps
  {
    RefillSane(l, c.at);
  }

  /** Tokens stay within 0..max_rps over any run. */
  lemma {:induction false} TokensBounded(l: Limit, calls: seq<Call>)
    requires Sane(l) && Ordered(l.lastRefill, calls)
    ensures Sane(Final(l, calls)) && Final(l, calls).maxRps == l.maxRps
    decreases calls
  {
    if calls == [] {
    } else {
      CallSane(l, calls[0]);
      OrderedFrom(calls[0].at, After(l, calls[0]).lastRefill, calls[1..]);
      TokensBounded(After(l, calls[0]), calls[1..]);
    }
  }

  lemma OrderedFrom(from: Time, earlier: Time, calls: seq<Call>)
    requires Ordered(from, calls) && earlier <= from
    ensures Ordered(earlier, calls)
  {}

  /** The tokens there would be at `t` without any call. */
  function Level(l: Limit, t: Time): real {
    Refill(l, t).tokens
  }

  lemma SecondsAdd(a: Time, b: Time, c: Time)
    ensures Seconds(a, b) + Seconds(b, c) == Seconds(a, c)
  {}

  lemma Distribute(x: real, y: real, k: real)
    ensures (x + y) * k == x * k + y * k
  {}

  /** Refilling twice is refilling once: the bucket behaves as if it were filled all the time. */
  lemma RefillTwice(l: Limit, t: Time, u: Time)
    requires Sane(l) && l.lastRefill <= t <= u
    ensures Refill(Refill(l, t), u) == Refill(l, u)
  {
    SecondsAdd(l.lastRefill, t, u);
    Distribute(Seconds(l.lastRefill, t), Seconds(t, u), l.maxRps);
    assert Seconds(t, u) * l.maxRps >= 0.0;
  }

  lemma LevelGrows(l: Limit, t: Time, u: Time)
    requires Sane(l) && l.lastRefill <= t <= u
    ensures Level(l, t) <= Level(l, u) <= Level(l, t) + l.maxRps * Seconds(t, u)
  {
    RefillTwice(l, t, u);
    RefillSane(Refill(l, t), u);
    RefillSane(l, t);
  }

  lemma CallLevel(l: Limit, c: Call, t: Time)
    requires Sane(l) && l.lastRefill <= c.at <= t
    ensures Level(After(l, c), t) + Cost(l, c) <= Level(l, c.at) + l.maxRps * Seconds(c.at, t)
  {
    RefillSane(l, c.at);
    RefillTwice(l, c.at, t);
    LevelGrows(l, c.at, t);
  }

  /** The tokens a window from `s` to `t` can hand out. */
  function Budget(l: Limit, s: Time, t: Time): real {
    Level(l, s) + l.maxRps * Seconds(s, t)
  }

  /** The tokens a run hands out, and those left at `t`. */
  function Spent(l: Limit, calls: seq<Call>, t: Time): real {
    CountDebits(l, calls) as real + Level(Final(l, calls), t)
  }

  /** Everything a window can hand out: what was there when it began, and what flowed in since. */
  lemma {:induction false} WindowBound(l: Limit, s: Time, calls: seq<Call>, t: Time)
    requires Sane(l) && l.lastRefill <= s <= t && Ordered(s, calls) && forall c <- calls :: c.at <= t
    ensures Spent(l, calls, t) <= Budget(l, s, t)
    decreases calls
  {
    if calls == [] {
      LevelGrows(l, s, t);
    } else {
      assert calls[0] in calls;
      CallSane(l, calls[0]);
      WindowBound(After(l, calls[0]), calls[0].at, calls[1..], t);
      SpentFirst(l, calls, t);
      BudgetStep(l, s, calls[0], t);
    }
  }

  function Cost(l: Limit, c: Call): real {
    if Debits(l, c) then 1.0 else 0.0
  }

  lemma SpentFirst(l: Limit, calls: seq<Call>, t: Time)
    requires calls != []
    ensures Spent(l, calls, t) == Cost(l, calls[0]) + Spent(After(l, calls[0]), calls[1..], t)
  {}

  lemma BudgetStep(l: Limit, s: Time, c: Call, t: Time)
    requires Sane(l) && l.lastRefill <= s <= c.at <= t
    ensures Cost(l, c) + Budget(After(l, c), c.at, t) <= Budget(l, s, t)
  {
    CallLevel(l, c, c.at);
    LevelGrows(l, s, c.at);
    SecondsAdd(s, c.at, t);
    assert l.maxRps * Seconds(s, t) == l.maxRps * Seconds(s, c.at) + l.maxRps * Seconds(c.at, t);
  }

  /** Between two set_limit calls a window of `t - s` hands out at most max_rps * (1 + t - s) tokens. */
  lemma WindowCap(l: Limit, s: Time, calls: seq<Call>, t: Time)
    requires Sane(l) && l.lastRefill <= s <= t && Ordered(s, calls) && forall c <- calls :: c.at <= t
    ensures CountDebits(l, calls) as real <= Budget(l, s, t) <= l.maxRps * (1.0 + Seconds(s, t))
  {
    WindowBound(l, s, calls, t);
    LeftOver(l, s, calls, t);
    BudgetCap(l, s, t);
  }

  lemma LeftOver(l: Limit, s: Time, calls: seq<Call>, t: Time)
    requires Sane(l) && l.lastRefill <= s <= t && Ordered(s, calls) && forall c <- calls :: c.at <= t
    ensures CountDebits(l, calls) as real <= Spent(l, calls, t)
  {
    OrderedFrom(s, l.lastRefill, calls);
    TokensBounded(l, calls);
    FinalRefill(l, calls, t);
    RefillSane(Final(l, calls), t);
  }

  lemma BudgetCap(l: Limit, s: Time, t: Time)
    requires Sane(l) && l.lastRefill <= s <= t
    ensures Budget(l, s, t) <= l.maxRps * (1.0 + Seconds(s, t))
  {
    RefillSane(l, s);
    Distribute(1.0, Seconds(s, t), l.maxRps);
  }

  lemma {:induction false} FinalRefill(l: Limit, calls: seq<Call>, t: Time)
    requires Sane(l) && l.lastRefill <= t && Ordered(l.lastRefill, calls) && forall c <- calls :: c.at <= t
    ensures Final(l, calls).lastRefill <= t
    decreases calls
  {
    if calls == [] {
    } else {
      assert calls[0] in calls;
      CallSane(l, calls[0]);
      OrderedFrom(calls[0].at, After(l, calls[0]).lastRefill, calls[1..]);
      FinalRefill(After(l, calls[0]), calls[1..], t);
    }
  }

  // ----- what a window does hand out

  /** Left alone until `t`, the bucket does not overflow. */
  predicate Room(l: Limit, t: Time) {
    l.tokens + Seconds(l.lastRefill, t) * l.maxRps <= l.maxRps
  }

  /** Nothing overflows at any call, nor at the end. */
  predicate NeverFull(l: Limit, calls: seq<Call>, t: Time)
    decreases calls
  {
    if calls == [] then Room(l, t) else Room(l, calls[0].at) && NeverFull(After(l, calls[0]), calls[1..], t)
  }

  /** Then not a token is lost: what was handed out and what is left is all there was and all that flowed in. */
  lemma {:induction false} WindowExact(l: Limit, s: Time, calls: seq<Call>, t: Time)
    requires Sane(l) && l.lastRefill <= s <= t && Ordered(s, calls) && forall c <- calls :: c.at <= t
    requires NeverFull(l, calls, t)
    ensures Spent(l, calls, t) == Budget(l, s, t)
    decreases calls
  {
    if calls == [] {
      RoomBefore(l, s, t);
    } else {
      var c := calls[0];
      assert c in calls;
      CallSane(l, c);
      WindowExact(After(l, c), c.at, calls[1..], t);
      SpentFirst(l, calls, t);
      ExactStep(l, s, c, t);
    }
  }

  lemma RoomBefore(l: Limit, s: Time, t: Time)
    requires Sane(l) && l.lastRefill <= s <= t && Room(l, t)
    ensures Level(l, t) == Level(l, s) + l.maxRps * Seconds(s, t)
  {
    SecondsAdd(l.lastRefill, s, t);
    Distribute(Seconds(l.lastRefill, s), Seconds(s, t), l.maxRps);
    assert Seconds(s, t) * l.maxRps >= 0.0;
  }

  lemma ExactStep(l: Limit, s: Time, c: Call, t: Time)
    requires Sane(l) && l.lastRefill <= s <= c.at <= t && Room(l, c.at)
    ensures Cost(l, c) + Budget(After(l, c), c.at, t) == Budget(l, s, t)
  {
    RoomBefore(l, s, c.at);
    SecondsAdd(s, c.at, t);
    Distribute(Seconds(s, c.at), Seconds(c.at, t), l.maxRps);
    CallTakes(l, c);
    CallSane(l, c);
  }

  /** A call takes one token or none. */
  lemma CallTakes(l: Limit, c: Call)
    requires Sane(l) && l.lastRefill <= c.at
    ensures Level(After(l, c), c.at) == Level(l, c.at) - Cost(l, c)
  {
    RefillSane(l, c.at);
    assert Seconds(c.at, c.at) == 0.0;
  }

  /** `k` starts at one instant. */
  function Starts(k: nat, high: bool, at: Time): seq<Call>
    decreases k
  {
    if k == 0 then [] else [Start(high, at)] + Starts(k - 1, high, at)
  }

  /**
   A bucket with `n` whole tokens at `at`, and nobody with precedence before them, grants exactly the
   first `n` of any number of starts at that instant.
  */
  lemma {:induction false} WholeTokensGranted(l: Limit, n: nat, k: nat, high: bool, at: Time)
    requires Sane(l) && l.lastRefill <= at && (high || l.highPriority == 0)
    requires n as real <= Level(l, at) < n as real + 1.0
    ensures CountDebits(l, Starts(k, high, at)) == if k <= n then k else n
    decreases k
  {
    if k == 0 {
    } else {
      var c := Start(high, at);
      assert Starts(k, high, at)[0] == c && Starts(k, high, at)[1..] == Starts(k - 1, high, at);
      CallSane(l, c);
      CallTakes(l, c);
      assert Debits(l, c) <==> n >= 1;
      WholeTokensGranted(After(l, c), if n >= 1 then n - 1 else 0, k - 1, high, at);
    }
  }

  /** A limit just set grants as many starts at once as its rate has whole requests a second. */
  lemma FreshLimitGrants(l: Limit, maxConcurrent: int, maxRps: real, now: Time, n: nat, k: nat, high: bool)
    requires n as real <= maxRps < n as real + 1.0 && maxRps > 0.0 && (high || l.highPriority == 0)
    ensures CountDebits(Configured(l, maxConcurrent, maxRps, now), Starts(k, high, now)) == if k <= n then k else n
  {
    var m := Configured(l, maxConcurrent, maxRps, now);
    assert Seconds(now, now) == 0.0;
    WholeTokensGranted(m, n, k, high, now);
  }

  /** Setting a limit anew forgets no refused poll: normal requests stay shut out by those on its count. */
  lemma SetLimitKeepsShut(l: Limit, maxConcurrent: int, maxRps: real, now: Time, calls: seq<Call>)
    requires l.highPriority > 0 && NormalOnly(calls)
    ensures CountDebits(Configured(l, maxConcurrent, maxRps, now), calls) == 0
  {
    var m := Configured(l, maxConcurrent, maxRps, now);
    NoHighStarts(m, calls);
    HighPriorityFirst(m, calls);
  }

  /** The first 429 after set_limit backs off one second within two seconds of it, and two later on. */
  lemma FreshLimitBackoff(l: Limit, maxConcurrent: int, maxRps: real, now: Time, t: Time)
    ensures var m := Configured(l, maxConcurrent, maxRps, now);
      After(m, Refuse(t)).backoff == if t < now + 2_000_000_000 then 1 else 2
  {}

  // ----- requests under way

  function CountReturns(calls: seq<Call>): nat
    decreases calls
  {
    if calls == [] then 0 else (if calls[0].Done? || calls[0].Refuse? then 1 else 0) + CountReturns(calls[1..])
  }

  /** No more requests come back than are under way. */
  predicate Covered(l: Limit, calls: seq<Call>)
    decreases calls
  {
    calls == [] || ((calls[0].Done? || calls[0].Refuse? ==> l.current > 0) && Covered(After(l, calls[0]), calls[1..]))
  }

  /** Then current_requests is the tokens taken less the requests that came back. */
  lemma {:induction false} CurrentExact(l: Limit, calls: seq<Call>)
    requires Covered(l, calls)
    ensures Final(l, calls).current == l.current + CountDebits(l, calls) - CountReturns(calls)
    decreases calls
  {
    if calls == [] {
    } else {
      CurrentExact(After(l, calls[0]), calls[1..]);
    }
  }

  /** Below one request a second no token is ever whole, so nothing is ever debited. */
  lemma {:induction false} SlowNeverDebits(l: Limit, calls: seq<Call>)
    requires Sane(l) && l.maxRps < 1.0 && Ordered(l.lastRefill, calls)
    ensures CountDebits(l, calls) == 0
    decreases calls
  {
    if calls == [] {
    } else {
      RefillSane(l, calls[0].at);
      CallSane(l, calls[0]);
      OrderedFrom(calls[0].at, After(l, calls[0]).lastRefill, calls[1..]);
      SlowNeverDebits(After(l, calls[0]), calls[1..]);
    }
  }

  /** A limit can ever debit exactly when its rate is at least one request a second. */
  lemma DebitsEverIff(l: Limit)
    requires Sane(l)
    ensures (exists calls: seq<Call> :: Ordered(l.lastRefill, calls) && CountDebits(l, calls) > 0) <==> l.maxRps >= 1.0
  {
    if l.maxRps >= 1.0 {
      var c := Start(true, l.lastRefill + NANOS);
      assert Seconds(l.lastRefill, c.at) == 1.0;
      assert Debits(l, c);
      var calls := [c];
      assert calls[0] == c && calls[1..] == [] && Debits(l, calls[0]);
      SpentFirst(l, calls, c.at);
      assert Ordered(l.lastRefill, calls) && CountDebits(l, calls) > 0;
    } else {
      forall calls: seq<Call> | Ordered(l.lastRefill, calls) ensures CountDebits(l, calls) == 0 {
        SlowNeverDebits(l, calls);
      }
    }
  }

  // ----- polls leave no trace

  /** From `t` on, the two limits cannot be told apart. */
  predicate Alike(l: Limit, m: Limit, t: Time) {
    l.lastRefill <= t && m.lastRefill <= t && Refill(l, t) == Refill(m, t)
  }

  lemma AlikeLater(l: Limit, m: Limit, t: Time, u: Time)
    requires Sane(l) && Sane(m) && Alike(l, m, t) && t <= u
    ensures Alike(l, m, u)
  {
    RefillTwice(l, t, u);
    RefillTwice(m, t, u);
  }

  lemma CallAlike(l: Limit, m: Limit, c: Call)
    requires Sane(l) && Sane(m) && Alike(l, m, c.at)
    ensures Alike(After(l, c), After(m, c), c.at) && (Debits(l, c) <==> Debits(m, c))
  {
    RefillTwice(l, c.at, c.at);
    RefillTwice(m, c.at, c.at);
  }

  lemma PollAlike(l: Limit, m: Limit, at: Time)
    requires Sane(l) && Sane(m) && Alike(l, m, at)
    ensures Alike(Polled(l, false, at), m, at)
  {
    RefillTwice(l, at, at);
  }

  /** The run without its normal-priority polls. */
  function Unpolled(calls: seq<Call>): seq<Call>
    decreases calls
  {
    if calls == [] then []
    else if calls[0].Poll? && !calls[0].high then Unpolled(calls[1..])
    else [calls[0]] + Unpolled(calls[1..])
  }

  /** Which of the starts of a run are granted, in order. */
  function Decisions(l: Limit, calls: seq<Call>): seq<bool>
    decreases calls
  {
    if calls == [] then []
    else (if calls[0].Start? then [Debits(l, calls[0])] else []) + Decisions(After(l, calls[0]), calls[1..])
  }

  /** Normal-priority polls, however many and whenever made, change no later decision and no later level. */
  lemma {:induction false} PollsLeaveNoTrace(l: Limit, m: Limit, from: Time, calls: seq<Call>, t: Time)
    requires Sane(l) && Sane(m) && Alike(l, m, from) && Ordered(from, calls)
    requires from <= t && forall c <- calls :: c.at <= t
    ensures Decisions(l, calls) == Decisions(m, Unpolled(calls))
    ensures Alike(Final(l, calls), Final(m, Unpolled(calls)), t)
    ensures Level(Final(l, calls), t) == Level(Final(m, Unpolled(calls)), t)
    decreases calls
  {
    if calls == [] {
      AlikeLater(l, m, from, t);
    } else {
      var c := calls[0];
      assert c in calls;
      AlikeLater(l, m, from, c.at);
      CallSane(l, c);
      if c.Poll? && !c.high {
        PollAlike(l, m, c.at);
        PollsLeaveNoTrace(After(l, c), m, c.at, calls[1..], t);
      } else {
        CallAlike(l, m, c);
        CallSane(m, c);
        PollsLeaveNoTrace(After(l, c), After(m, c), c.at, calls[1..], t);
        assert ([c] + Unpolled(calls[1..]))[1..] == Unpolled(calls[1..]);
      }
    }
  }

  // ----- the wait

  /**
   The wait answered at `now` is tight: left alone, the bucket has a whole token one nanosecond after
   the wait at the latest, and none before the wait is over.
  */
  lemma WaitIsTight(l: Limit, w: nat, t: Time)
    requires Sane(l) && l.maxRps >= 1.0 && l.tokens < 1.0 && CastAnswer(l, w) && l.lastRefill <= t
    ensures t >= l.lastRefill + w + 1 ==> Level(l, t) >= 1.0
    ensures t < l.lastRefill + w ==> Level(l, t) < 1.0
  {
    WaitRange(l);
    WaitedTokens(l, t);
  }

  lemma WaitRange(l: Limit)
    requires Sane(l) && l.maxRps >= 1.0 && l.tokens < 1.0
    ensures 0.0 <= WaitFor(l) <= NANOS as real
  {
    var x := 1.0 - l.tokens;
    assert 0.0 <= x / l.maxRps <= 1.0 by { QuotientRange(x, l.maxRps); }
  }

  lemma QuotientRange(x: real, y: real)
    requires 0.0 <= x <= 1.0 <= y
    ensures 0.0 <= x / y <= 1.0
  {
    assert x / y * y == x;
    MulOrder(1.0, x / y, y);
    MulOrder(x / y, 0.0, y);
  }

  /** After `t` the bucket is whole exactly when the wait is over. */
  lemma WaitedTokens(l: Limit, t: Time)
    requires Sane(l) && l.maxRps >= 1.0 && l.tokens < 1.0 && l.lastRefill <= t
    ensures Level(l, t) >= 1.0 <==> (t - l.lastRefill) as real >= WaitFor(l)
  {
    var x, e, n := 1.0 - l.tokens, Seconds(l.lastRefill, t), NANOS as real;
    var q := x / l.maxRps;
    assert q * l.maxRps == x;
    MulOrder(e, q, l.maxRps);
    MulOrder(e, q, n);
    assert e * n == (t - l.lastRefill) as real;
    assert Level(l, t) == Least(l.maxRps, l.tokens + e * l.maxRps);
  }

  lemma MulOrder(a: real, b: real, k: real)
    requires k > 0.0
    ensures a >= b <==> a * k >= b * k
  {
    if a >= b { assert (a - b) * k >= 0.0; } else { assert (b - a) * k > 0.0; }
  }

  /** The cast of the wait is outside the range of uint64_t. */
  predicate CastOutside(l: Limit) {
    l.maxRps != 0.0 && !(-1.0 < WaitFor(l) < CAST_LIMIT)
  }

  /**
   A request that is turned away has its wait cast out of range exactly when it waits for precedence
   alone, with a nanosecond's worth of tokens more than it needs, or when a token is 2^64 nanoseconds
   away or more.
  */
  lemma CastOutsideIff(l: Limit, high: bool)
    requires Sane(l) && !Grants(l, high)
    ensures CastOutside(l) <==>
      || (!high && l.highPriority != 0 && (l.tokens - 1.0) * NANOS as real >= l.maxRps)
      || (1.0 - l.tokens) * NANOS as real >= CAST_LIMIT * l.maxRps
  {
    WaitOutside(1.0 - l.tokens, l.maxRps, WaitFor(l));
  }

  lemma WaitOutside(x: real, m: real, w: real)
    requires m > 0.0 && w == x / m * NANOS as real
    ensures -1.0 < w <==> -m < x * NANOS as real
    ensures w < CAST_LIMIT <==> x * NANOS as real < CAST_LIMIT * m
  {
    var n, q := NANOS as real, x / m;
    assert q * m == x;
    assert w * m == x * n by { Reorder(q, m, n); }
    MulOrder(w, CAST_LIMIT, m);
    AboveMinusOne(w, m, x * n);
  }

  lemma AboveMinusOne(w: real, m: real, y: real)
    requires m > 0.0 && y == w * m
    ensures -1.0 < w <==> -m < y
  {
    if -1.0 < w { assert (w + 1.0) * m > 0.0; } else { assert (-1.0 - w) * m >= 0.0; }
  }

  lemma Reorder(a: real, b: real, c: real)
    ensures a * c * b == a * b * c
  {}

  /**
   When start_request answers 0 without taking a token: nothing was granted, and the wait is a
   fraction of a nanosecond on either side of zero. On the far side the cast is open.
  */
  lemma ZeroWithoutTokenIff(l: Limit, high: bool)
    requires Sane(l) && !Grants(l, high)
    ensures (forall answer: nat :: CastAnswer(l, answer) ==> answer == 0) <==>
      1.0 - l.maxRps / NANOS as real < l.tokens < 1.0 + l.maxRps / NANOS as real
    ensures l.tokens >= 1.0 ==> !high && l.highPriority != 0
  {
    WaitBounds(l);
    if -1.0 < WaitFor(l) < 1.0 {
      assert WaitFor(l) < CAST_LIMIT;
    } else if 1.0 <= WaitFor(l) < CAST_LIMIT {
      assert CastAnswer(l, WaitFor(l).Floor);
    } else {
      assert CastAnswer(l, 1);
    }
  }

  lemma WaitBounds(l: Limit)
    requires Sane(l)
    ensures WaitFor(l) < 1.0 <==> 1.0 - l.maxRps / NANOS as real < l.tokens
    ensures WaitFor(l) > -1.0 <==> l.tokens < 1.0 + l.maxRps / NANOS as real
  {
    var x, n := 1.0 - l.tokens, NANOS as real;
    var q, r := x / l.maxRps, l.maxRps / n;
    assert q * l.maxRps == x && r * n == l.maxRps;
    ScaledOrder(q, r, l.maxRps, n);
    ScaledOrder(-q, r, l.maxRps, n);
    assert -q * l.maxRps == -x && -q * n == -(q * n);
  }

  lemma ScaledOrder(q: real, r: real, k: real, n: real)
    requires k > 0.0 && n > 0.0 && r * n == k
    ensures q * n < 1.0 <==> q * k < r
  {
    var d := 1.0 - q * n;
    assert r - q * k == r * d;
    assert r > 0.0 by { if r <= 0.0 { MulOrder(0.0, r, n); } }
    MulOrder(0.0, d, r);
  }

  /** It does happen: a full bucket of one token, while a high-priority request waits for it. */
  lemma StartsWithoutToken()
    ensures var l := Limit(1, 1.0, 0, 1, 1.0, 0, 0, 1);
      && Sane(l) && !Debits(l, Start(false, 0))
      && forall answer: nat :: CastAnswer(Started(l, false, 0), answer) ==> answer == 0
  {
    var l := Limit(1, 1.0, 0, 1, 1.0, 0, 0, 1);
    assert Seconds(0, 0) == 0.0;
    assert Started(l, false, 0) == l;
    ZeroWithoutTokenIff(l, false);
  }

  // ----- high priority

  predicate HighDebits(l: Limit, c: Call) {
    Debits(l, c) && c.high
  }

  /** High-priority polls that were turned away. */
  predicate HighWaits(l: Limit, c: Call) {
    c.Poll? && c.high && Refill(l, c.at).tokens < 1.0
  }

  function CountHigh(l: Limit, calls: seq<Call>): nat
    decreases calls
  {
    if calls == [] then 0 else (if HighDebits(l, calls[0]) then 1 else 0) + CountHigh(After(l, calls[0]), calls[1..])
  }

  function CountWaits(l: Limit, calls: seq<Call>): nat
    decreases calls
  {
    if calls == [] then 0 else (if HighWaits(l, calls[0]) then 1 else 0) + CountWaits(After(l, calls[0]), calls[1..])
  }

  /**
   Once a high-priority poll has been turned away, no normal request takes a token until a
   high-priority one does. The count of polls is only worked off by debits, so it takes as many
   high-priority debits as there were polls turned away.
  */
  lemma {:induction false} HighPriorityFirst(l: Limit, calls: seq<Call>)
    requires l.highPriority > CountHigh(l, calls)
    ensures CountDebits(l, calls) == CountHigh(l, calls)
    ensures Final(l, calls).highPriority == l.highPriority + CountWaits(l, calls) - CountHigh(l, calls)
    decreases calls
  {
    if calls == [] {
    } else {
      HighPriorityFirst(After(l, calls[0]), calls[1..]);
    }
  }

  predicate NormalOnly(calls: seq<Call>) {
    forall c <- calls :: !(c.Start? && c.high)
  }

  /** Without high-priority starts a limit ever hands out a token again exactly if no refused poll is on its count. */
  lemma NormalDebitsEverIff(l: Limit)
    requires Sane(l) && l.maxRps >= 1.0 && l.highPriority >= 0
    ensures (exists calls: seq<Call> :: NormalOnly(calls) && Ordered(l.lastRefill, calls) && CountDebits(l, calls) > 0)
            <==> l.highPriority == 0
  {
    if l.highPriority == 0 {
      var c := Start(false, l.lastRefill + NANOS);
      assert Seconds(l.lastRefill, c.at) == 1.0;
      assert Debits(l, c);
      var calls := [c];
      assert calls[0] == c && calls[1..] == [];
      SpentFirst(l, calls, c.at);
      assert NormalOnly(calls) && Ordered(l.lastRefill, calls) && CountDebits(l, calls) > 0;
    } else {
      forall calls: seq<Call> | NormalOnly(calls) ensures CountDebits(l, calls) == 0 {
        NoHighStarts(l, calls);
        HighPriorityFirst(l, calls);
      }
    }
  }

  /** One request takes the token, a high-priority one is turned away twice, then starts. */
  const POLLED_TWICE := [Start(false, 0), Poll(true, 0), Poll(true, 0), Start(true, NANOS)]

  /**
   A limit of one request a second gets there from its set_limit: the high-priority request has its
   token, one of its two polls stays on the count, and normal requests starve from then on.
  */
  lemma NormalStarves()
    ensures var l := Configured(Limit(0, 0.0, 0, 0, 0.0, 0, 0, 0), 1, 1.0, 0);
      && Ordered(0, POLLED_TWICE) && Final(l, POLLED_TWICE).highPriority == 1
      && forall calls: seq<Call> :: NormalOnly(calls) ==> CountDebits(Final(l, POLLED_TWICE), calls) == 0
  {
    var l := Configured(Limit(0, 0.0, 0, 0, 0.0, 0, 0, 0), 1, 1.0, 0);
    var l1 := After(l, Start(false, 0));
    assert Seconds(0, 0) == 0.0 && Seconds(0, NANOS) == 1.0;
    assert l1 == l.(tokens := 0.0, current := 1);
    var l2 := After(l1, Poll(true, 0));
    assert l2 == l1.(highPriority := 1);
    var l3 := After(l2, Poll(true, 0));
    assert l3 == l1.(highPriority := 2);
    var l4 := After(l3, Start(true, NANOS));
    assert l4 == l1.(highPriority := 1, current := 2, lastRefill := NANOS);
    PolledTwice(l, l1, l2, l3);
    forall calls: seq<Call> | NormalOnly(calls) ensures CountDebits(l4, calls) == 0 {
      NoHighStarts(l4, calls);
      HighPriorityFirst(l4, calls);
    }
  }

  lemma PolledTwice(l: Limit, l1: Limit, l2: Limit, l3: Limit)
    requires l1 == After(l, POLLED_TWICE[0]) && l2 == After(l1, POLLED_TWICE[1]) && l3 == After(l2, POLLED_TWICE[2])
    ensures Final(l, POLLED_TWICE) == After(l3, POLLED_TWICE[3]) && Ordered(0, POLLED_TWICE)
  {
    var a := POLLED_TWICE[1..];
    var b := a[1..];
    var c := b[1..];
    assert a[0] == POLLED_TWICE[1] && b[0] == POLLED_TWICE[2] && c[0] == POLLED_TWICE[3] && c[1..] == [];
    assert Final(l3, c) == After(l3, c[0]);
    assert Final(l2, b) == Final(l3, c);
    assert Final(l1, a) == Final(l2, b);
    assert Ordered(0, c) && Ordered(0, b) && Ordered(0, a);
  }

  lemma {:induction false} NoHighStarts(l: Limit, calls: seq<Call>)
    requires NormalOnly(calls)
    ensures CountHigh(l, calls) == 0
    decreases calls
  {
    if calls == [] {
    } else {
      assert calls[0] in calls;
      NoHighStarts(After(l, calls[0]), calls[1..]);
    }
  }

  // ----- 429

  function Power(m: nat): nat {
    if m == 0 then 1 else 2 * Power(m - 1)
  }

  function Capped(n: nat): nat {
    if n <= 60 then n else 60
  }

  /** The backoff stays within 1..60 over any run. */
  lemma {:induction false} BackoffBounded(l: Limit, calls: seq<Call>)
    requires 1 <= l.backoff <= 60
    ensures 1 <= Final(l, calls).backoff <= 60
    decreases calls
  {
    if calls == [] {
    } else {
      BackoffBounded(After(l, calls[0]), calls[1..]);
    }
  }

  /** The 429s of a run, all at least two seconds after the last success, and no completion among them. */
  predicate Refusals(l: Limit, calls: seq<Call>) {
    forall c <- calls :: !c.Done? && (c.Refuse? ==> c.at >= l.lastSuccess + 2 * NANOS)
  }

  function CountRefusals(calls: seq<Call>): nat
    decreases calls
  {
    if calls == [] then 0 else (if calls[0].Refuse? then 1 else 0) + CountRefusals(calls[1..])
  }

  /** The m-th answer in a row is min(2^m, 60), whatever polls and starts happen in between. */
  lemma {:induction false} BackoffDoubles(l: Limit, k: nat, calls: seq<Call>)
    requires l.backoff == Capped(Power(k)) && Refusals(l, calls)
    ensures Final(l, calls).backoff == Capped(Power(k + CountRefusals(calls)))
    decreases calls
  {
    if calls == [] {
    } else {
      var c := calls[0];
      assert c in calls;
      assert Refusals(After(l, c), calls[1..]) by { forall d <- calls[1..] ensures d in calls {} }
      assert c.Refuse? ==> After(l, c).backoff == Capped(Power(k + 1)) by { PowerPositive(k); }
      BackoffDoubles(After(l, c), if c.Refuse? then k + 1 else k, calls[1..]);
    }
  }

  lemma {:induction false} PowerPositive(k: nat)
    ensures Power(k) >= 1
  {
    if k == 0 {
    } else {
      PowerPositive(k - 1);
    }
  }

  /** A completion, or a 429 within two seconds of one, resets it to one second. */
  lemma BackoffResets(l: Limit, at: Time, m: nat, refusals: seq<Call>)
    requires refusals != [] && forall c <- refusals :: c.Refuse? && c.at >= at + 2 * NANOS
    requires CountRefusals(refusals) == m
    ensures Finished(l, at).backoff == 1
    ensures forall t: Time :: t < at + 2 * NANOS ==> TooMany(Finished(l, at), t).backoff == 1
    ensures Final(Finished(l, at), refusals).backoff == Capped(Power(m))
  {
    BackoffDoubles(Finished(l, at), 0, refusals);
  }

  // ----- the concurrency limit

  /** max_concurrent is stored and decides nothing: any other value gives the same run. */
  lemma {:induction false} MaxConcurrentIgnored(l: Limit, calls: seq<Call>, k: int)
    ensures Final(l.(maxConcurrent := k), calls) == Final(l, calls).(maxConcurrent := k)
    ensures CountDebits(l.(maxConcurrent := k), calls) == CountDebits(l, calls)
    decreases calls
  {
    if calls == [] {
    } else {
      var c := calls[0];
      assert After(l.(maxConcurrent := k), c) == After(l, c).(maxConcurrent := k);
      MaxConcurrentIgnored(After(l, c), calls[1..], k);
    }
  }
}
