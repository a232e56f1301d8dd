/**
 A cancel takes effect when it is drained. Nothing stops a caller from cancelling a request that no
 multimap holds, and nothing stops the loop from moving a request between the cancel and the drain.
 This module says exactly when the drain still finds the request in the multimap it looks in.
*/
module UndrainedCancel {
  import opened Sequences
  import opened LoopState
  import opened LoopSteps
  import opened Filing
  import opened LoopInvariant
  import opened LoopEvents
  import opened LoopRuns
  import opened Teardown
  import opened OwnerRelease
  import opened MissingRetry

  /** The drain would find `r` live, and filed in the multimap it takes it out of. */
  predicate Finds(s: State, r: Rid) {
    r in s.reqs && r in s.f.place && s.f.place[r] == Chosen(s.reqs[r])
  }

  /** Whatever the request, the multimap chosen is the one that holds it exactly in these three places. */
  lemma FindsIff(s: State, r: Rid)
    requires Reachable(s) && r in s.reqs
    ensures Finds(s, r) <==> r in s.f.place && s.f.place[r] in {Queued, Inactive, Refresh}
  {
    ReachableInv(s);
    assert Proper(s.reqs[r], s.f.place[r]);
  }

  lemma StartFinds(s: State, r: Rid, l: Launch)
    requires r in s.reqs
    ensures Finds(Start(s, r, l), r) <==> !Refused(s.reqs[r], l) && l.prepared
  {
    if !Refused(s.reqs[r], l) && !l.prepared { DestroyedReqs(Detach(s, r), r); }
  }

  lemma FiledFinds(s: State, r: Rid, p: Place, pos: nat)
    requires r in s.reqs
    ensures Finds(Put(s, r, p, pos), r) <==> p == Chosen(s.reqs[r])
  {}

  /**
   The head of a scan, cancelled or not: afterwards the drain still finds it exactly when it was
   neither refiled under a rate limit nor destroyed because its handle could not be set up.
  */
  lemma ScanFindsIff(s: State, p: Place, r: Rid, first: nat, firstNow: Time, poll: nat, now: Time, l: Launch)
    requires Reachable(s) && Head(s, p, r) && p in {Refresh, Inactive}
    ensures Finds(DoScan(s, r, first, firstNow, poll, now, l), r) <==>
      && !(s.reqs[r].rateLimited && first > 0)
      && (Ready(s, r, poll, now) ==> !Refused(s.reqs[r], l) && l.prepared)
  {
    FindsIff(s, r);
    HeadPlace(s, p, r);
    if s.reqs[r].rateLimited && first > 0 {
      FiledFinds(Rekey(Take(s, r), r, firstNow + first), r, RateLimited, l.pos);
    } else if Ready(s, r, poll, now) {
      StartFinds(Take(s, r), r, l);
    }
  }

  lemma HeadPlace(s: State, p: Place, r: Rid)
    requires Reachable(s) && Head(s, p, r)
    ensures s.f.place[r] == p
  {
    ReachableInv(s);
    PlaceOf(s, p, r);
  }

  /** A finished transfer: the drain still finds the request exactly when it was enqueued again. */
  lemma CompleteFindsIff(s: State, r: Rid, c: Completion)
    requires Reachable(s) && r in s.reqs && r in s.f.place && s.f.place[r] == Queued
    ensures Finds(DoComplete(s, r, c), r) <==> OutcomeOf(s.reqs[r], c) !in {TooMany, Finished}
  {
    DestroyedReqs(SetReq(Take(s, r), r, Completed(s.reqs[r], c)), r);
  }

  /** `r` is cancelled, and the transfer that ends now has it destroyed while the cancelled list still names it. */
  ghost predicate NamesFreed(s: State, r: Rid, c: Completion) {
    && Reachable(s) && s.mode == Running && r in s.cancelled && Finds(s, r)
    && s.f.place[r] == Queued && OutcomeOf(s.reqs[r], c) == Finished
    && var t := DoComplete(s, r, c);
    && r in t.cancelled && r !in t.reqs
  }

  /** It happens: a request is cancelled while it is queued, and its transfer ends before the next drain. */
  lemma CancelledThenFreed()
    ensures exists s: State, r: Rid, c: Completion :: NamesFreed(s, r, c)
  {
    var t := CancelledQueued();
    var c := Completion(true, false, 0, 0, false, 0, 0, 0);
    FindsIff(t, 1);
    FinishedFrees(t, 1, c);
    assert NamesFreed(t, 1, c);
  }

  lemma CancelledQueued() returns (t: State)
    ensures Reachable(t) && t.mode == Running && t.cancelled == [1] && 1 in t.reqs && !t.reqs[1].refresh
    ensures 1 in t.f.place && t.f.place[1] == Queued && !t.reqs[1].rateLimited
  {
    var s := QueuedDefault();
    QueuedPlace(s);
    NoCancels(s);
    ReachableStep(s, Cancel(1));
    t := Apply(s, Cancel(1));
  }

  lemma NoCancels(s: State)
    requires Reachable(s) && s.mode == Running && s.reqs.Keys == {1} && !s.reqs[1].isCancelled
    ensures s.cancelled == []
  {
    if s.cancelled != [] { CancelledFlag(s, s.cancelled[0]); }
  }

  lemma CancelledFlag(s: State, r: Rid)
    requires Reachable(s) && r in s.cancelled
    ensures r in s.reqs && s.reqs[r].isCancelled
  {
    ReachableInv(s);
    assert r in s.cancelWork + s.cancelled;
  }

  // ----- destroying the loop

  /** Teardown from `s` comes to walk the cancelled list, and to read a request it has freed. */
  ghost predicate WalkHurts(s: State, events: seq<Event>, t: State) {
    && Reachable(s) && s.mode == Running && Run(s, [CloseBegin] + events, t)
    && t.mode.Closing? && EmptyBefore(t.f, 4) && WalkCancelled(t, t.undrained) == None
  }

  /** It happens, with a single cancel that was not drained. */
  lemma UndrainedTeardownFaults()
    ensures exists s: State, events: seq<Event>, t: State :: WalkHurts(s, events, t)
  {
    var s := CancelledQueued();
    var events, t := TeardownCompletes(s);
    assert WalkHurts(s, events, t);
  }

  // ----- cancelling what is in no multimap, or in the wrong one

  /** The call would accept the cancel of `r`, which is at `p`, and the drain would look for it elsewhere. */
  ghost predicate Misses(s: State, r: Rid, p: Place) {
    && Reachable(s) && s.mode == Running && r in s.reqs && r in s.f.place && s.f.place[r] == p
    && !s.reqs[r].isPending && !s.reqs[r].isCancelled && !Finds(s, r)
  }

  /** It happens to a blocked request, to one that was blocked and is pending again, and to a rate-limited one. */
  lemma CancelsMissed()
    ensures exists s: State, r: Rid, id: Id :: Misses(s, r, Blocked(id))
    ensures exists s: State, r: Rid :: Misses(s, r, Pending)
    ensures exists s: State, r: Rid :: Misses(s, r, RateLimited)
  {
    var s := OneWaiter();
    WaitsThere(s);
    FindsIff(s, 1);
    assert Misses(s, 1, Blocked(7));
    var t := Woken(s);
    PendingThere(t);
    FindsIff(t, 1);
    assert Misses(t, 1, Pending);
    var u := TurnedAway();
    FindsIff(u, 1);
    assert Misses(u, 1, RateLimited);
  }

  lemma PendingThere(t: State)
    requires Reachable(t) && ListOf(t.f, Pending) == Reverse([1])
    ensures 1 in t.f.place && t.f.place[1] == Pending
  {
    ReachableInv(t);
    assert [1][1..] == [] && Reverse([1]) == [1];
    assert 1 in ListOf(t.f, Pending);
  }

  /** The only request has a rate limit and was turned away when it was to start. */
  lemma TurnedAway() returns (s: State)
    ensures Reachable(s) && s.mode == Running && 1 in s.reqs && 1 in s.f.place && s.f.place[1] == RateLimited
    ensures !s.reqs[1].isPending && !s.reqs[1].isCancelled
  {
    var s0 := Initial(1);
    assert Run(s0, [], s0);
    var q := DEFAULT_REQUEST.(rateLimited := true);
    var u := Submitted(s0, 1, q, 0);
    var v := Detached(u, 1, 0);
    RefusedOne(v);
    var e := TakeOne(1, 0, 0, Launch(1, false, 0, 0));
    ReachableStep(v, e);
    ReachableStep(Apply(v, e), DrainEnd);
    s := Apply(Apply(v, e), DrainEnd);
  }

  lemma RefusedOne(s: State)
    requires WaitingAlone(s, 1) && s.reqs[1] == FreshRequest(DEFAULT_REQUEST.(rateLimited := true))
    requires ListOf(s.f, Queued) == [] && ListOf(s.f, RateLimited) == [] && s.maxConcurrent == 1
    ensures var e := TakeOne(1, 0, 0, Launch(1, false, 0, 0));
      && Enabled(s, e)
      && var t := Apply(s, e);
      && t.mode == Draining && t.cancelWork == [] && ListOf(t.f, Work) == []
      && 1 in t.reqs && t.reqs[1] == s.reqs[1].(isPending := false, key := 1)
      && 1 in t.f.place && t.f.place[1] == RateLimited
  {
    var u := Taken(s, 1);
    assert u.reqs[1].deps == [] && FirstUnmet(u.g, []) == None;
    assert ListOf(u.f, Work) == [] && ListOf(u.f, Queued) == [] && ListOf(u.f, RateLimited) == [];
    assert Retain(u, 1) == u;
  }

  lemma FinishedFrees(s: State, r: Rid, c: Completion)
    requires r in s.reqs && r in s.f.place && OutcomeOf(s.reqs[r], c) == Finished
    ensures DoComplete(s, r, c).reqs == s.reqs - {r} && DoComplete(s, r, c).cancelled == s.cancelled
  {
    DestroyedReqs(SetReq(Take(s, r), r, Completed(s.reqs[r], c)), r);
  }

  lemma QueuedPlace(s: State)
    requires Reachable(s) && ListOf(s.f, Queued) == [1]
    ensures 1 in s.f.place && s.f.place[1] == Queued && 1 in s.reqs && !s.reqs[1].isPending
  {
    ReachableInv(s);
    assert 1 in ListOf(s.f, Queued);
    assert Proper(s.reqs[1], Queued);
  }
}
