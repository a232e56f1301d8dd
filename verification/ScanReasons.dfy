/**
 Why move_inactive_requests_to_queue leaves a request where it is. Reasons are told from the events of
 the call and the state after it.
*/
module ScanReasons {
  import opened Sequences
  import opened LoopState
  import opened LoopSteps
  import opened Filing
  import opened LoopInvariant
  import opened LoopRuns
  import opened LoopTheorems
  import opened Teardown
  import opened EventOutcomes

  /** The rate limit turned `r` away, when the scan came to it or when it was to start. */
  predicate Refuses(e: Event, r: Rid) {
    e.Scan? && e.r == r && (e.first > 0 || (e.poll == 0 && e.launch.wait > 0))
  }

  ghost predicate TurnedAway(events: seq<Event>, r: Rid) {
    exists i :: 0 <= i < |events| && Refuses(events[i], r)
  }

  /** The first poll about `h`, at the head of `p`, let it pass, and the second one did not. */
  predicate HoldsBack(e: Event, p: Place, h: Rid) {
    e.Scan? && e.p == p && e.r == h && e.first == 0 && e.poll > 0
  }

  ghost predicate HeldBack(events: seq<Event>, p: Place, h: Rid) {
    exists i :: 0 <= i < |events| && HoldsBack(events[i], p, h)
  }

  predicate Full(s: State) {
    |ListOf(s.f, Queued)| >= s.maxConcurrent
  }

  /** Why the scan of `p` went no further: nothing was left, no slot, nothing due, or a rate limit. */
  ghost predicate Stays(s: State, events: seq<Event>, p: Place, due: Time) {
    var l := ListOf(s.f, p);
    || l == [] || Full(s)
    || (l[0] in s.reqs && due < s.reqs[l[0]].key)
    || (l[0] in s.reqs && s.reqs[l[0]].rateLimited && HeldBack(events, p, l[0]))
  }

  /** A rate-limited request that was due at `at` and stopped the scan, so `r` behind it was not reached. */
  ghost predicate Blocks(s: State, events: seq<Event>, h: Rid, r: Rid, at: Time) {
    && (h in ListOf(s.f, RateLimited) || h in ListOf(s.f, Root)) && h in s.reqs && r in s.reqs
    && s.reqs[h].rateLimited && s.reqs[h].key <= at && s.reqs[h].key <= s.reqs[r].key && HeldBack(events, Root, h)
  }

  /** Why `r` is still rate-limited: it was not due at `at`, it was turned away, no slot, or it was not reached. */
  ghost predicate Excused(s: State, events: seq<Event>, r: Rid, at: Time) {
    && r in s.reqs
    && (at < s.reqs[r].key || TurnedAway(events, r) || Full(s) || exists h: Rid :: Blocks(s, events, h, r, at))
  }

  /** Of all requests that are rate-limited, or detached to be scanned. */
  ghost predicate AllExcused(s: State, events: seq<Event>, at: Time) {
    forall r: Rid :: r in ListOf(s.f, RateLimited) || r in ListOf(s.f, Root) ==> Excused(s, events, r, at)
  }

  /** Whatever is in the new rate-limited multimap was put there because it was turned away. */
  ghost predicate AllTurnedAway(s: State, events: seq<Event>) {
    forall r <- ListOf(s.f, RateLimited) :: TurnedAway(events, r)
  }

  lemma TurnedAwayLater(events: seq<Event>, more: seq<Event>, r: Rid)
    requires TurnedAway(events, r)
    ensures TurnedAway(events + more, r)
  {
    var i :| 0 <= i < |events| && Refuses(events[i], r);
    assert (events + more)[i] == events[i];
  }

  lemma HeldBackLater(events: seq<Event>, more: seq<Event>, p: Place, h: Rid)
    requires HeldBack(events, p, h)
    ensures HeldBack(events + more, p, h)
  {
    var i :| 0 <= i < |events| && HoldsBack(events[i], p, h);
    assert (events + more)[i] == events[i];
  }

  // ----- one turn of a scan

  /** What a turn about `r`, at the head of `p`, leaves alone. */
  ghost predicate Leaves(s: State, t: State, r: Rid, p: Place, refused: bool) {
    && (forall x <- ListOf(t.f, RateLimited) :: x in ListOf(s.f, RateLimited) || (refused && x == r))
    && (forall x <- ListOf(s.f, RateLimited) :: x in ListOf(t.f, RateLimited))
    && (p != Root ==> ListOf(t.f, Root) == ListOf(s.f, Root))
    && (p == Inactive ==> ListOf(t.f, Refresh) == ListOf(s.f, Refresh))
    && |ListOf(t.f, Queued)| >= |ListOf(s.f, Queued)| && t.maxConcurrent == s.maxConcurrent
    && (forall x <- s.reqs :: x != r ==> x in t.reqs && t.reqs[x] == s.reqs[x])
  }

  ghost predicate TurnLeaves(s: State, t: State, e: Event)
    requires e.Scan?
  {
    Leaves(s, t, e.r, e.p, Refuses(e, e.r))
  }

  lemma PutLeaves(s: State, u: State, r: Rid, p: Place, q: Place, pos: nat)
    requires r in s.reqs && r in s.f.place && s.f.place[r] == p && p in {Root, Refresh, Inactive}
    requires u.f == Unfile(s.f, r) && q in {RateLimited, Queued} && u.maxConcurrent == s.maxConcurrent
    requires forall x <- s.reqs :: x != r ==> x in u.reqs && u.reqs[x] == s.reqs[x]
    ensures Leaves(s, Put(u, r, q, pos), r, p, q == RateLimited)
  {
    var l := ListOf(u.f, q);
    var at := if pos <= |l| then pos else |l|;
    assert l == ListOf(s.f, q);
    Inserted(l, at, r);
    assert ListOf(Put(u, r, q, pos).f, q) == InsertAt(l, at, r);
  }

  lemma Inserted(l: seq<Rid>, at: nat, r: Rid)
    requires at <= |l|
    ensures forall x :: x in InsertAt(l, at, r) <==> x in l || x == r
    ensures |InsertAt(l, at, r)| == |l| + 1
  {
    var m := InsertAt(l, at, r);
    forall x ensures x in m <==> x in l || x == r {
      assert l == l[..at] + l[at..];
    }
  }

  lemma RefileLeaves(s: State, r: Rid, p: Place, key: Time, pos: nat)
    requires r in s.reqs && r in s.f.place && s.f.place[r] == p && p in {Root, Refresh, Inactive}
    ensures Leaves(s, Put(Rekey(Take(s, r), r, key), r, RateLimited, pos), r, p, true)
  {
    PutLeaves(s, Rekey(Take(s, r), r, key), r, p, RateLimited, pos);
  }

  lemma StartLeaves(s: State, r: Rid, p: Place, l: Launch)
    requires r in s.reqs && r in s.f.place && s.f.place[r] == p && p in {Root, Refresh, Inactive}
    ensures Leaves(s, Start(Take(s, r), r, l), r, p, s.reqs[r].rateLimited && l.wait > 0)
  {
    if Refused(s.reqs[r], l) {
      RefileLeaves(s, r, p, l.wait, l.pos);
    } else if l.prepared {
      PutLeaves(s, Attach(Detach(Take(s, r), r), r, l.now), r, p, Queued, l.pos);
    } else {
      DestroyLeaves(s, r, p);
    }
  }

  lemma DestroyLeaves(s: State, r: Rid, p: Place)
    requires r in s.reqs && r in s.f.place && s.f.place[r] == p && p in {Root, Refresh, Inactive}
    ensures Leaves(s, Destroy(Detach(Take(s, r), r), r), r, p, false)
  {}

  lemma ScanLeaves(s: State, e: Event)
    requires Reachable(s) && Enabled(s, e) && e.Scan?
    ensures TurnLeaves(s, Apply(s, e), e)
  {
    ListFacts(s, e.p, e.r);
    if s.reqs[e.r].rateLimited && e.first > 0 {
      RefileLeaves(s, e.r, e.p, e.firstNow + e.first, e.launch.pos);
    } else if Ready(s, e.r, e.poll, e.now) {
      StartLeaves(s, e.r, e.p, e.launch);
    }
  }

  // ----- a whole scan

  /** The events are turns of a scan of `p`. */
  ghost predicate ScansOf(events: seq<Event>, p: Place) {
    forall e <- events :: e.Scan? && e.p == p
  }

  lemma TurnTurnsAway(s: State, before: seq<Event>, e: Event)
    requires Reachable(s) && Enabled(s, e) && e.Scan? && AllTurnedAway(s, before)
    ensures Reachable(Apply(s, e)) && AllTurnedAway(Apply(s, e), before + [e])
  {
    ReachableStep(s, e);
    ScanLeaves(s, e);
    forall x <- ListOf(Apply(s, e).f, RateLimited) ensures TurnedAway(before + [e], x) {
      if x in ListOf(s.f, RateLimited) { TurnedAwayLater(before, [e], x); }
      else { assert Refuses((before + [e])[|before|], x); }
    }
  }

  /** An excuse outlives a turn about another request. */
  lemma OneExcused(s: State, t: State, before: seq<Event>, e: Event, x: Rid, at: Time)
    requires e.Scan? && e.p != Root && TurnLeaves(s, t, e) && Excused(s, before, x, at) && x != e.r
    requires e.r !in ListOf(s.f, RateLimited) && e.r !in ListOf(s.f, Root)
    ensures Excused(t, before + [e], x, at)
  {
    if TurnedAway(before, x) {
      TurnedAwayLater(before, [e], x);
    } else if !Full(s) && at >= s.reqs[x].key {
      var h: Rid :| Blocks(s, before, h, x, at);
      HeldBackLater(before, [e], Root, h);
      assert Blocks(t, before + [e], h, x, at);
    }
  }

  lemma Elsewhere(s: State, p: Place, q: Place, r: Rid)
    requires Reachable(s) && r in ListOf(s.f, p) && p != q
    ensures r !in ListOf(s.f, q)
  {
    ListFacts(s, p, r);
    RequestFacts(s, r);
  }

  lemma TurnExcuses(s: State, before: seq<Event>, e: Event, at: Time)
    requires Reachable(s) && Enabled(s, e) && e.Scan? && e.p in {Refresh, Inactive} && AllExcused(s, before, at)
    ensures Reachable(Apply(s, e)) && AllExcused(Apply(s, e), before + [e], at)
  {
    var t := Apply(s, e);
    ReachableStep(s, e);
    ScanLeaves(s, e);
    assert e.r in ListOf(s.f, e.p);
    Elsewhere(s, e.p, RateLimited, e.r);
    Elsewhere(s, e.p, Root, e.r);
    forall x: Rid | x in ListOf(t.f, RateLimited) || x in ListOf(t.f, Root) ensures Excused(t, before + [e], x, at) {
      if x in ListOf(s.f, RateLimited) || x in ListOf(s.f, Root) {
        OneExcused(s, t, before, e, x, at);
      } else {
        assert Refuses((before + [e])[|before|], x);
        ListFacts(t, RateLimited, x);
      }
    }
  }

  /** The reason why the refresh scan stopped outlives a turn of the inactive one. */
  lemma TurnStays(s: State, before: seq<Event>, e: Event, due: Time)
    requires Reachable(s) && Enabled(s, e) && e.Scan? && e.p == Inactive && Stays(s, before, Refresh, due)
    ensures Reachable(Apply(s, e)) && Stays(Apply(s, e), before + [e], Refresh, due)
  {
    ReachableStep(s, e);
    ScanLeaves(s, e);
    var l := ListOf(s.f, Refresh);
    if l != [] {
      assert e.r in ListOf(s.f, Inactive);
      Elsewhere(s, Inactive, Refresh, e.r);
      assert l[0] != e.r by { assert l[0] in l; }
      if HeldBack(before, Refresh, l[0]) { HeldBackLater(before, [e], Refresh, l[0]); }
    }
  }

  lemma Regrouped(before: seq<Event>, events: seq<Event>)
    requires events != []
    ensures before + [events[0]] + events[1..] == before + events
  {}

  lemma {:induction false} ScanTurnsAway(s: State, before: seq<Event>, events: seq<Event>, t: State)
    requires Reachable(s) && Run(s, events, t) && (forall e <- events :: e.Scan?) && AllTurnedAway(s, before)
    ensures AllTurnedAway(t, before + events)
    decreases events
  {
    if events == [] {
      assert before + events == before;
    } else {
      var e := events[0];
      assert e in events;
      TurnTurnsAway(s, before, e);
      ScanTurnsAway(Apply(s, e), before + [e], events[1..], t);
      Regrouped(before, events);
    }
  }

  lemma {:induction false} ScanExcuses(s: State, before: seq<Event>, events: seq<Event>, t: State, at: Time)
    requires Reachable(s) && Run(s, events, t) && AllExcused(s, before, at)
    requires forall e <- events :: e.Scan? && e.p in {Refresh, Inactive}
    ensures AllExcused(t, before + events, at)
    decreases events
  {
    if events == [] {
      assert before + events == before;
    } else {
      var e := events[0];
      assert e in events;
      TurnExcuses(s, before, e, at);
      ScanExcuses(Apply(s, e), before + [e], events[1..], t, at);
      Regrouped(before, events);
    }
  }

  lemma {:induction false} ScanStays(s: State, before: seq<Event>, events: seq<Event>, t: State, due: Time)
    requires Reachable(s) && Run(s, events, t) && ScansOf(events, Inactive) && Stays(s, before, Refresh, due)
    ensures Stays(t, before + events, Refresh, due)
    decreases events
  {
    if events == [] {
      assert before + events == before;
    } else {
      var e := events[0];
      assert e in events;
      TurnStays(s, before, e, due);
      ScanStays(Apply(s, e), before + [e], events[1..], t, due);
      Regrouped(before, events);
    }
  }

  // ----- the scan of the rate-limited multimap

  /** When the scan of the detached multimap is over, everything in it and everything refiled has its reason. */
  lemma RootExcused(s: State, events: seq<Event>, at: Time)
    requires Reachable(s) && Stays(s, events, Root, at) && AllTurnedAway(s, events)
    ensures AllExcused(s, events, at)
  {
    MapsSorted(s, Root);
    forall r: Rid | r in ListOf(s.f, RateLimited) || r in ListOf(s.f, Root) ensures Excused(s, events, r, at) {
      if r in ListOf(s.f, RateLimited) {
        ListFacts(s, RateLimited, r);
      } else {
        ListFacts(s, Root, r);
        BehindHead(s, events, r, at);
      }
    }
  }

  lemma BehindHead(s: State, events: seq<Event>, r: Rid, at: Time)
    requires Stays(s, events, Root, at) && KeysSorted(ListOf(s.f, Root), s.reqs)
    requires r in ListOf(s.f, Root) && r in s.reqs
    ensures Excused(s, events, r, at)
  {
    var l := ListOf(s.f, Root);
    var i :| 0 <= i < |l| && l[i] == r;
    var h := l[0];
    assert h in l;
    assert i > 0 ==> KeysInOrder(s.reqs, h, r);
    if !Full(s) && h in s.reqs && s.reqs[h].key <= at {
      assert HeldBack(events, Root, h);
      assert Blocks(s, events, h, r, at);
    }
  }

  /** Merging moves requests from one of the two multimaps to the other. */
  lemma MergeExcuses(s: State, before: seq<Event>, e: Event, at: Time)
    requires Reachable(s) && Enabled(s, e) && e.MergeOne? && AllExcused(s, before, at)
    ensures Reachable(Apply(s, e)) && AllExcused(Apply(s, e), before + [e], at)
  {
    ReachableStep(s, e);
    var t, r := Apply(s, e), e.r;
    ListFacts(s, RateLimited, r);
    MergedLists(s, r, e.pos);
    forall x: Rid | x in ListOf(t.f, RateLimited) || x in ListOf(t.f, Root) ensures Excused(t, before + [e], x, at) {
      SameExcuse(s, t, before, [e], x, at);
    }
  }

  lemma MergedLists(s: State, r: Rid, pos: nat)
    requires r in s.f.place && s.f.place[r] == RateLimited && r in ListOf(s.f, RateLimited)
    ensures var t := Put(Take(s, r), r, Root, pos);
      && (forall x: Rid :: x in ListOf(t.f, RateLimited) || x in ListOf(t.f, Root) <==>
            x in ListOf(s.f, RateLimited) || x in ListOf(s.f, Root))
      && t.reqs == s.reqs && Full(t) == Full(s)
  {
    var t, l := Put(Take(s, r), r, Root, pos), ListOf(s.f, Root);
    var at := if pos <= |l| then pos else |l|;
    Inserted(l, at, r);
    assert ListOf(t.f, Root) == InsertAt(l, at, r);
    assert ListOf(t.f, RateLimited) == Without(ListOf(s.f, RateLimited), r);
    forall x: Rid
      ensures x in ListOf(t.f, RateLimited) || x in ListOf(t.f, Root) <==>
        x in ListOf(s.f, RateLimited) || x in ListOf(s.f, Root)
    {
      WithoutKeeps(ListOf(s.f, RateLimited), r, x);
    }
  }

  lemma {:induction false} WithoutKeeps(l: seq<Rid>, r: Rid, x: Rid)
    ensures x in Without(l, r) ==> x in l
    ensures x in l ==> x == r || x in Without(l, r)
    decreases l
  {
    if l == [] {
    } else {
      WithoutKeeps(l[1..], r, x);
    }
  }

  /** An excuse depends on which requests are in the two multimaps, not on which is where. */
  lemma SameExcuse(s: State, t: State, before: seq<Event>, more: seq<Event>, x: Rid, at: Time)
    requires Excused(s, before, x, at) && t.reqs == s.reqs && Full(t) == Full(s)
    requires forall h: Rid :: h in ListOf(s.f, RateLimited) || h in ListOf(s.f, Root) ==>
      h in ListOf(t.f, RateLimited) || h in ListOf(t.f, Root)
    ensures Excused(t, before + more, x, at)
  {
    if TurnedAway(before, x) {
      TurnedAwayLater(before, more, x);
    } else if !Full(s) && at >= s.reqs[x].key {
      var h: Rid :| Blocks(s, before, h, x, at);
      HeldBackLater(before, more, Root, h);
      assert Blocks(t, before + more, h, x, at);
    }
  }

  lemma {:induction false} MergesExcuse(s: State, before: seq<Event>, events: seq<Event>, t: State, at: Time)
    requires Reachable(s) && Run(s, events, t) && AllExcused(s, before, at) && forall e <- events :: e.MergeOne?
    ensures AllExcused(t, before + events, at)
    decreases events
  {
    if events == [] {
      assert before + events == before;
    } else {
      var e := events[0];
      assert e in events;
      MergeExcuses(s, before, e, at);
      MergesExcuse(Apply(s, e), before + [e], events[1..], t, at);
      Regrouped(before, events);
    }
  }

  lemma EndExcuses(s: State, before: seq<Event>, at: Time)
    requires Enabled(s, ScanEnd) && AllExcused(s, before, at)
    ensures AllExcused(Apply(s, ScanEnd), before + [ScanEnd], at)
  {
    var t := Apply(s, ScanEnd);
    assert ListOf(t.f, RateLimited) == ListOf(s.f, Root) && ListOf(t.f, Root) == [] && ListOf(s.f, RateLimited) == [];
    forall x: Rid | x in ListOf(t.f, RateLimited) || x in ListOf(t.f, Root)
      ensures Excused(t, before + [ScanEnd], x, at)
    {
      SameExcuse(s, t, before, [ScanEnd], x, at);
    }
  }

  // ----- runs cut in two

  /** What the rest of a run starts from is what its first part leads to. */
  lemma {:induction false} RunRest(s: State, before: seq<Event>, u: State, rest: seq<Event>, t: State)
    requires Run(s, before, u) && Run(s, before + rest, t)
    ensures Run(u, rest, t)
    decreases before
  {
    if before == [] {
      assert before + rest == rest;
    } else {
      assert (before + rest)[0] == before[0] && (before + rest)[1..] == before[1..] + rest;
      RunRest(Apply(s, before[0]), before[1..], u, rest, t);
    }
  }
}
