/**
 The loop and the rate manager together: the calls that one request with a rate limit makes on its
 bucket on the way to its start. Every turn that moves it polls, some twice, and only the start takes
 back one of the refused polls of a high-priority request that the bucket counts.
*/
module LimitedTurns {
  import opened Sequences
  import opened LoopState
  import opened LoopSteps
  import opened RateLimits

  /** The calls of request_ready and of the start that follows it, at the time `at`. */
  function ReadyCalls(s: State, r: Rid, poll: nat, now: int, high: bool, at: int): seq<Call>
    requires r in s.reqs
  {
    if |ListOf(s.f, Queued)| >= s.maxConcurrent || !s.reqs[r].rateLimited then []
    else [Poll(high, at)] + if Ready(s, r, poll, now) then [RateLimits.Start(high, at)] else []
  }

  /** The calls that taking `r` from the pending snapshot makes. */
  function DrainCalls(s: State, r: Rid, e: Event, high: bool, at: int): seq<Call>
    requires e.TakeOne? && r in s.f.place && r in s.reqs
  {
    var u := Retain(Taken(s, r), r);
    if s.reqs[r].isCancelled || FirstUnmet(u.g, u.reqs[r].deps) != None then []
    else ReadyCalls(u, r, e.poll, e.now, high, at)
  }

  /** The calls of one turn of a scan: request_is_rate_limited, then request_ready and the start. */
  function ScanCalls(s: State, r: Rid, e: Event, high: bool, at: int): seq<Call>
    requires e.Scan? && r in s.reqs
  {
    if !s.reqs[r].rateLimited then []
    else [Poll(high, at)] + if e.first > 0 then [] else ReadyCalls(s, r, e.poll, e.now, high, at)
  }

  /** Taken from the pending snapshot with a slot free, the request is turned away by its rate limit. */
  predicate TurnedAwayPending(s: State, r: Rid, e: Event) {
    && e.TakeOne? && e.r == r && r in s.reqs && r in s.f.place && r in s.hist
    && s.reqs[r].rateLimited && !s.reqs[r].isCancelled && e.poll > 0
    && var u := Retain(Taken(s, r), r);
    && FirstUnmet(u.g, u.reqs[r].deps) == None && |ListOf(u.f, Queued)| < u.maxConcurrent
  }

  /** The scan comes to the request, which is turned away again. */
  predicate TurnedAwayScanned(s: State, r: Rid, e: Event) {
    e.Scan? && e.r == r && r in s.reqs && r in s.f.place && s.reqs[r].rateLimited && e.first > 0
  }

  /** The scan comes to the request, and it starts. */
  predicate StartsScanned(s: State, r: Rid, e: Event) {
    e.Scan? && e.r == r && r in s.reqs && s.reqs[r].rateLimited && e.first == 0 && Ready(s, r, e.poll, e.now)
  }

  function Episode(a: int, b: int, c: int): seq<Call> {
    [Poll(true, a), Poll(true, b), Poll(true, c), Poll(true, c), RateLimits.Start(true, c)]
  }

  /**
   A request turned away once when it was pending is filed under the time it was due anyway, so a scan
   of the same turn comes to it; turned away by that, it is filed as rate-limited and scanned again.
   Until it starts it has polled four times.
  */
  lemma EpisodeCalls(s: State, t: State, u: State, r: Rid, d: Event, e: Event, f: Event,
                     a: int, b: int, c: int)
    requires TurnedAwayPending(s, r, d) && TurnedAwayScanned(t, r, e) && StartsScanned(u, r, f)
    ensures DrainCalls(s, r, d, true, a) + ScanCalls(t, r, e, true, b) + ScanCalls(u, r, f, true, c) == Episode(a, b, c)
    ensures var v := DoTakeOne(s, r, d.poll, d.now, d.launch);
      && r in v.f.place && v.f.place[r] in {Inactive, Refresh} && r in v.reqs && v.reqs[r].key == s.reqs[r].key
    ensures var v := DoScan(t, r, e.first, e.firstNow, e.poll, e.now, e.launch);
      r in v.f.place && v.f.place[r] == RateLimited
  {
    assert !Ready(Retain(Taken(s, r), r), r, d.poll, d.now);
  }

  /** Polls and starts between refills only, as far as the level goes. */
  lemma PolledLevel(l: Limit, t: int, u: int)
    requires Sane(l) && l.lastRefill <= t <= u
    ensures var m := Polled(l, true, t);
      && Sane(m) && m.lastRefill == t && Level(m, u) == Level(l, u) && m.maxRps == l.maxRps
      && m.highPriority == l.highPriority + if Level(l, t) < 1.0 then 1 else 0
  {
    RefillSane(l, t);
    RefillTwice(l, t, u);
  }

  /**
   If the bucket had no token at the first two of those polls and has one at the last, the start leaves
   one refused poll on its count, and no normal request takes a token until another high-priority one
   starts.
  */
  lemma EpisodeLeavesCount(l: Limit, a: int, b: int, c: int)
    requires Sane(l) && l.highPriority >= 0 && l.lastRefill <= a <= b <= c && Level(l, b) < 1.0 <= Level(l, c)
    ensures Final(l, Episode(a, b, c)).highPriority == l.highPriority + 1
    ensures forall calls: seq<Call> :: NormalOnly(calls) ==> CountDebits(Final(l, Episode(a, b, c)), calls) == 0
  {
    var l1 := Polled(l, true, a);
    var l2 := Polled(l1, true, b);
    var l3 := Polled(l2, true, c);
    var l4 := Polled(l3, true, c);
    LevelGrows(l, a, b);
    PolledLevel(l, a, b);
    PolledLevel(l, a, c);
    PolledLevel(l1, b, c);
    PolledLevel(l2, c, c);
    PolledLevel(l3, c, c);
    Unrolled(l, a, b, c);
    var m := Final(l, Episode(a, b, c));
    forall calls: seq<Call> | NormalOnly(calls) ensures CountDebits(m, calls) == 0 {
      NoHighStarts(m, calls);
      HighPriorityFirst(m, calls);
    }
  }

  lemma Unrolled(l: Limit, a: int, b: int, c: int)
    ensures Final(l, Episode(a, b, c)) ==
      Started(Polled(Polled(Polled(Polled(l, true, a), true, b), true, c), true, c), true, c)
  {
    var l1 := Polled(l, true, a);
    var l2 := Polled(l1, true, b);
    var l3 := Polled(l2, true, c);
    FinalFirst(l, Poll(true, a), [Poll(true, b), Poll(true, c), Poll(true, c), RateLimits.Start(true, c)]);
    FinalFirst(l1, Poll(true, b), [Poll(true, c), Poll(true, c), RateLimits.Start(true, c)]);
    FinalFirst(l2, Poll(true, c), [Poll(true, c), RateLimits.Start(true, c)]);
    FinalFirst(l3, Poll(true, c), [RateLimits.Start(true, c)]);
    FinalFirst(Polled(l3, true, c), RateLimits.Start(true, c), []);
    assert Episode(a, b, c) == [Poll(true, a)] + ([Poll(true, b)] + ([Poll(true, c)] + ([Poll(true, c)]
                               + ([RateLimits.Start(true, c)] + []))));
  }

  lemma FinalFirst(l: Limit, x: Call, rest: seq<Call>)
    ensures Final(l, [x] + rest) == Final(After(l, x), rest)
  {
    assert ([x] + rest)[1..] == rest;
  }
}
