/** What the loop promises, in every reachable state. */
module LoopTheorems {
  import opened Sequences
  import opened LoopState
  import opened LoopSteps
  import opened Filing
  import opened Counting
  import opened Waiting
  import opened LoopInvariant
  import opened LoopEvents
  import opened LoopRuns

  /** What the invariant says of one request. */
  lemma RequestFacts(s: State, r: Rid)
    requires Reachable(s) && (r in s.reqs || r in s.f.place || r in s.hist)
    ensures r in s.reqs && r in s.f.place && r in s.hist && s.f.place[r] != Hand
    ensures Proper(s.reqs[r], s.f.place[r])
    ensures Waits(s.g, s.reqs[r], s.f.place[r], s.hist[r], Open(s.mode))
    ensures forall p: Place :: r in ListOf(s.f, p) <==> p == s.f.place[r]
  {
    ReachableInv(s);
    forall p: Place ensures r in ListOf(s.f, p) <==> p == s.f.place[r] {}
  }

  lemma ListFacts(s: State, p: Place, r: Rid)
    requires Reachable(s) && r in ListOf(s.f, p)
    ensures r in s.reqs && r in s.f.place && s.f.place[r] == p
  {
    ReachableInv(s);
  }

  // ----- reference counts

  /** A node's count is what callers hold on it plus its entries in live, retained requests. */
  lemma RefcountsExact(s: State, id: Id)
    requires Reachable(s) && id in s.g.nodes
    ensures s.g.nodes[id].refcnt == Client(s.g, id) + Pins(s.reqs)[id]
    ensures Client(s.g, id) >= 0 && (s.g.nodes[id].autoRelease ==> Client(s.g, id) >= 1)
  {
    ReachableInv(s);
  }

  lemma PinnedCounted(s: State, id: Id)
    requires Reachable(s) && Open(s.mode) && id in Pins(s.reqs)
    ensures id in s.g.nodes && s.g.nodes[id].refcnt >= 1
  {
    ReachableInv(s);
  }

  /** No node is erased while a retained request names it or a request waits on it. */
  lemma PinnedNodesLive(s: State, r: Rid, id: Id)
    requires Reachable(s) && Open(s.mode) && r in s.reqs
    requires id in PinnedDeps(s.reqs[r]) || r in ListOf(s.f, Blocked(id))
    ensures id in s.g.nodes && s.g.nodes[id].refcnt >= 1
  {
    RequestFacts(s, r);
    PinsHold(s.reqs, r, id);
    PinnedCounted(s, id);
  }

  // ----- places

  /** Every submitted request that was not destroyed is in exactly one list, and once. */
  lemma EachInOnePlace(s: State, r: Rid)
    requires Reachable(s) && r in s.submitted && r !in s.destroyed
    ensures r in s.reqs && r in s.f.place && r in ListOf(s.f, s.f.place[r])
    ensures forall p: Place :: r in ListOf(s.f, p) <==> p == s.f.place[r]
    ensures forall p: Place :: Distinct(ListOf(s.f, p))
  {
    ReachableInv(s);
    RequestFacts(s, r);
  }

  /** The lists hold live requests only, and a request is destroyed at most once. */
  lemma ListedAreLive(s: State, p: Place, r: Rid)
    requires Reachable(s) && r in ListOf(s.f, p)
    ensures r in s.reqs && r in s.submitted && r !in s.destroyed && Distinct(s.destroyed)
  {
    ReachableInv(s);
    PlaceOf(s, p, r);
  }

  // ----- admission

  /**
   The multi handle never holds more requests than allowed, and each was due when it started, with
   every dependency published or failed, and still so.
  */
  lemma AdmittedRequests(s: State)
    requires Reachable(s)
    ensures |ListOf(s.f, Queued)| <= s.maxConcurrent
    ensures forall r <- ListOf(s.f, Queued) ::
      && r in s.reqs && s.reqs[r].attached && s.reqs[r].startTime >= s.reqs[r].key
      && (Open(s.mode) ==> forall d <- s.reqs[r].deps :: Resolved(s.g, d))
  {
    QueueBounded(s);
    forall r <- ListOf(s.f, Queued)
      ensures r in s.reqs && s.reqs[r].attached && s.reqs[r].startTime >= s.reqs[r].key
      ensures Open(s.mode) ==> forall d <- s.reqs[r].deps :: Resolved(s.g, d)
    {
      ListFacts(s, Queued, r);
      RequestFacts(s, r);
    }
  }

  lemma QueueBounded(s: State)
    requires Reachable(s)
    ensures |ListOf(s.f, Queued)| <= s.maxConcurrent
  {
    ReachableInv(s);
  }

  /** Once a request has passed the dependency check, the check in request_ready never fails it. */
  lemma SecondCheckPasses(s: State, r: Rid)
    requires Reachable(s) && Open(s.mode) && r in s.reqs && r in s.f.place && ByKey(s.f.place[r])
    ensures FirstUnmet(s.g, s.reqs[r].deps) == None
  {
    RequestFacts(s, r);
    UnmetIsDep(s.g, s.reqs[r].deps);
  }

  /** The multimaps stay sorted by next_retry_at. */
  lemma MapsSorted(s: State, p: Place)
    requires Reachable(s) && ByKey(p)
    ensures KeysSorted(ListOf(s.f, p), s.reqs)
  {
    ReachableInv(s);
  }

  /** A default-policy request that is not refreshed is granted at most max_retries retries. */
  lemma RetryBound(s: State, r: Rid)
    requires Reachable(s) && r in s.reqs
    requires s.reqs[r].policy == DefaultPolicy && !s.reqs[r].refresh && s.reqs[r].maxRetries >= 0
    ensures s.reqs[r].granted == s.reqs[r].retries <= s.reqs[r].maxRetries
  {
    RequestFacts(s, r);
  }

  /** num_multi_requests counts the attached handles and the ones left behind by a 429. */
  lemma MultiCount(s: State)
    requires Reachable(s)
    ensures s.numMulti == |Attached(s.reqs)| + s.leaked
    ensures forall r <- ListOf(s.f, Queued) :: r in Attached(s.reqs)
    ensures forall r <- Attached(s.reqs) :: r in s.f.place && s.f.place[r] in {Queued, RateLimited, Root}
  {
    ReachableCount(s);
    forall r <- ListOf(s.f, Queued) ensures r in Attached(s.reqs) {
      ListFacts(s, Queued, r);
      RequestFacts(s, r);
    }
    forall r <- Attached(s.reqs) ensures r in s.f.place && s.f.place[r] in {Queued, RateLimited, Root} {
      RequestFacts(s, r);
    }
  }

  lemma ReachableCount(s: State)
    requires Reachable(s)
    ensures s.numMulti == |Attached(s.reqs)| + s.leaked
  {
    ReachableInv(s);
  }

  lemma {:induction false} DistinctSize<T>(xs: seq<T>)
    requires Distinct(xs)
    ensures |set x | x in xs| == |xs|
  {
    if xs == [] {
    } else {
      DistinctSize(xs[1..]);
      assert xs[0] !in xs[1..];
      assert (set x | x in xs) == {xs[0]} + set x | x in xs[1..];
    }
  }

  lemma SubsetSize<T>(a: set<T>, b: set<T>)
    requires a <= b
    ensures |a| <= |b| && (|a| == |b| <==> a == b)
  {
    assert b == a + (b - a);
  }

  /**
   num_multi_requests equals num_queued_requests exactly while no 429 has left a handle behind: none
   forgotten, and none with a request that is waiting to be started again.
  */
  lemma MultiIsQueuedIff(s: State)
    requires Reachable(s)
    ensures s.numMulti == |ListOf(s.f, Queued)| <==>
      s.leaked == 0 && forall r <- Attached(s.reqs) :: r in ListOf(s.f, Queued)
  {
    var queued := set r | r in ListOf(s.f, Queued);
    MultiCount(s);
    QueuedDistinct(s);
    DistinctSize(ListOf(s.f, Queued));
    SubsetSize(queued, Attached(s.reqs));
  }

  /** A 429 does leave one behind: the transfer is out of the queue, its handle is not out of the multi handle. */
  lemma TooManyLeavesHandle(s: State, r: Rid, c: Completion)
    requires Reachable(s) && Enabled(s, Complete(r, c)) && c.tooMany && s.reqs[r].rateLimited
    ensures var t := Apply(s, Complete(r, c));
      && t.numMulti == s.numMulti && |ListOf(t.f, Queued)| == |ListOf(s.f, Queued)| - 1
      && r in t.reqs && r in Attached(t.reqs) && r !in ListOf(t.f, Queued)
  {
    RequestFacts(s, r);
    QueuedDistinct(s);
    WithoutDistinct(ListOf(s.f, Queued), r);
    TooManyShape(s, r, c);
  }

  lemma TooManyShape(s: State, r: Rid, c: Completion)
    requires r in s.reqs && r in s.f.place && s.f.place[r] == Queued && OutcomeOf(s.reqs[r], c) == TooMany
    ensures var t := DoComplete(s, r, c);
      && t.numMulti == s.numMulti && ListOf(t.f, Queued) == Without(ListOf(s.f, Queued), r)
      && r in t.reqs && t.reqs[r].attached == s.reqs[r].attached
  {}

  lemma QueuedDistinct(s: State)
    requires Reachable(s)
    ensures Distinct(ListOf(s.f, Queued))
  {
    ReachableInv(s);
  }

  // ----- submitting twice

  /** curl_event_request_submit recognises a request that is pending for the first time or holds a handle. */
  predicate Recognised(q: Request) {
    q.isPending || q.attached
  }

  /** Submitting a live request again, as far as the lists go. */
  function Resubmit(s: State, r: Rid): State
    requires r in s.reqs
  {
    if Recognised(s.reqs[r]) then s
    else SetReq(s, r, s.reqs[r].(isPending := true)).(
           f := s.f.(lists := s.f.lists[Pending := [r] + ListOf(s.f, Pending)]))
  }

  /** Two links lead to `r`. */
  ghost predicate Twice(f: Files, r: Rid) {
    || (exists p: Place :: p != Pending && r in ListOf(f, p) && r in ListOf(f, Pending))
    || !Distinct(ListOf(f, Pending))
  }

  /**
   A second submission leaves the request in two lists, or twice in one, exactly when it is not
   recognised. So it does if the request is blocked, inactive or refresh, and never if it is queued.
  */
  lemma SecondSubmitIff(s: State, r: Rid)
    requires Reachable(s) && r in s.reqs
    ensures Twice(Resubmit(s, r).f, r) <==> !Recognised(s.reqs[r])
    ensures r in s.f.place && (s.f.place[r].Blocked? || s.f.place[r] in {Inactive, Refresh} ==> !Recognised(s.reqs[r]))
    ensures s.f.place[r] == Queued ==> Recognised(s.reqs[r])
  {
    RequestFacts(s, r);
    PendingDistinct(s);
    if !Recognised(s.reqs[r]) { LinkedTwice(s, r, s.f.place[r]); }
  }

  lemma LinkedTwice(s: State, r: Rid, p: Place)
    requires r in s.reqs && !Recognised(s.reqs[r]) && r in ListOf(s.f, p)
    ensures Twice(Resubmit(s, r).f, r)
  {
    var f, l := Resubmit(s, r).f, ListOf(s.f, Pending);
    assert ListOf(f, Pending) == [r] + l;
    if p == Pending {
      var i :| 0 <= i < |l| && l[i] == r;
      assert ([r] + l)[0] == ([r] + l)[i + 1];
    } else {
      assert ListOf(f, p) == ListOf(s.f, p) && ([r] + l)[0] == r;
    }
  }

  lemma PendingDistinct(s: State)
    requires Reachable(s)
    ensures Distinct(ListOf(s.f, Pending))
  {
    ReachableInv(s);
  }

  // ----- when the loop returns

  /** The exit test of curl_event_loop_run, with no transfer running. */
  predicate MayExit(s: State) {
    ListOf(s.f, Pending) == [] && ListOf(s.f, Queued) == [] && ListOf(s.f, Refresh) == [] && ListOf(s.f, Inactive) == []
  }

  /** If the test says so, requests are left exactly if some are rate-limited or blocked, which it does not look at. */
  lemma ExitLeavesIff(s: State)
    requires Reachable(s) && s.mode.Running? && MayExit(s)
    ensures s.reqs != map[] <==> ListOf(s.f, RateLimited) != [] || exists id: Id :: ListOf(s.f, Blocked(id)) != []
  {
    if s.reqs != map[] {
      var r :| r in s.reqs;
      ExitPlace(s, r);
    } else {
      forall p: Place ensures ListOf(s.f, p) == [] { NothingListed(s, p); }
    }
  }

  lemma ExitPlace(s: State, r: Rid)
    requires Reachable(s) && s.mode.Running? && MayExit(s) && r in s.reqs
    ensures ListOf(s.f, RateLimited) != [] || exists id: Id :: ListOf(s.f, Blocked(id)) != []
  {
    ReachableInv(s);
    var p := s.f.place[r];
    assert r in ListOf(s.f, p);
    if p.Blocked? { assert ListOf(s.f, Blocked(p.id)) != []; }
  }

  lemma NothingListed(s: State, p: Place)
    requires Reachable(s) && s.reqs == map[]
    ensures ListOf(s.f, p) == []
  {
    if ListOf(s.f, p) != [] { ListFacts(s, p, ListOf(s.f, p)[0]); }
  }

  // ----- when a request is due again

  /** The time part of request_ready. */
  predicate Due(s: State, r: Rid, now: Time) {
    r in s.reqs && now >= s.reqs[r].key
  }

  /**
   A start refused at the time `asked` files the request under the length of the wait, not under its
   end: it is due once the clock has passed that length. At a time `now` this is what the
   documentation promises exactly outside the interval between the length of the wait and its end.
  */
  lemma RefusedStartDueIff(s: State, r: Rid, l: Launch, asked: nat, now: Time)
    requires r in s.reqs && Refused(s.reqs[r], l)
    ensures Due(Start(s, r, l), r, now) <==> now >= l.wait
    ensures (Due(Start(s, r, l), r, now) <==> now >= asked + l.wait) <==> now < l.wait || now >= asked + l.wait
  {
    assert Start(s, r, l).reqs[r].key == l.wait;
  }

  /** A second after the epoch of the clock, a request told to wait a millisecond is due at once. */
  lemma RefusedStartDueAtOnce(s: State, r: Rid)
    requires r in s.reqs && s.reqs[r].rateLimited
    ensures var t := Start(s, r, Launch(1_000_000, false, 1_000_000_000, 0));
      Due(t, r, 1_000_000_000)
  {
    RefusedStartDueIff(s, r, Launch(1_000_000, false, 1_000_000_000, 0), 1_000_000_000, 1_000_000_000);
  }

  /**
   A request refreshed after an answer of 0 keeps the time it was due at before, which is past: no
   refresh interval is waited for, unless the interval is nothing.
  */
  lemma RefreshKeepsInterval(s: State, r: Rid, c: Completion, interval: nat)
    requires Reachable(s) && Enabled(s, Complete(r, c)) && OutcomeOf(s.reqs[r], c) == Again
    requires c.now >= s.reqs[r].startTime
    ensures var t := Apply(s, Complete(r, c));
      && r in t.reqs && r in ListOf(t.f, Refresh) && t.reqs[r].key <= s.reqs[r].startTime
      && (t.reqs[r].key >= c.now + interval ==> interval == 0)
      && (t.reqs[r].key >= c.now + interval <==> interval == 0 && c.now == s.reqs[r].startTime == s.reqs[r].key)
  {
    RequestFacts(s, r);
    AgainShape(s, r, c);
  }

  lemma AgainShape(s: State, r: Rid, c: Completion)
    requires r in s.reqs && r in s.f.place && OutcomeOf(s.reqs[r], c) == Again
    ensures var t := DoComplete(s, r, c); r in t.reqs && t.reqs[r].key == s.reqs[r].key && r in ListOf(t.f, Refresh)
  {
    var u := SetReq(Take(s, r), r, Completed(s.reqs[r], c));
    var l := ListOf(u.f, Refresh);
    var pos := if c.pos <= |l| then c.pos else |l|;
    assert InsertAt(l, pos, r)[pos] == r;
    assert ListOf(DoComplete(s, r, c).f, Refresh) == InsertAt(l, pos, r);
  }

  // ----- waiting

  lemma {:induction false} DistinctWithin<T>(xs: seq<T>, within: set<T>)
    requires Distinct(xs) && forall x <- xs :: x in within
    ensures |xs| <= |within|
    decreases xs
  {
    if xs == [] {
    } else {
      var rest := within - {xs[0]};
      forall x <- xs[1..] ensures x in rest {
        var i :| 0 <= i < |xs[1..]| && xs[1..][i] == x;
        assert xs[0] != xs[i + 1];
      }
      DistinctWithin(xs[1..], rest);
    }
  }

  function DepSet(q: Request): set<Id> {
    set d | d in q.deps
  }

  /** A request is blocked at most once on each dependency, and only on unmet ones. */
  lemma BlockedOncePerDependency(s: State, r: Rid)
    requires Reachable(s) && r in s.reqs
    ensures r in s.hist && Distinct(s.hist[r])
    ensures |s.hist[r]| <= |DepSet(s.reqs[r])|
    ensures r in s.f.place && (s.f.place[r].Blocked? ==>
      var id := s.f.place[r].id;
      && id in s.g.nodes && !Resolved(s.g, id) && id in s.reqs[r].deps
      && s.hist[r] != [] && s.hist[r][|s.hist[r]| - 1] == id)
  {
    RequestFacts(s, r);
    DistinctWithin(s.hist[r], DepSet(s.reqs[r]));
  }

  /** The dependencies a request still waits for. */
  ghost function Unmet(g: Graph, q: Request): set<Id> {
    set d | d in q.deps && !Resolved(g, d)
  }

  lemma ProperSubsetSmaller<T>(a: set<T>, b: set<T>, x: T)
    requires a <= b && x in b && x !in a
    ensures |a| < |b|
  {
    assert b == a + (b - a);
    assert x in b - a;
  }

  /** Publishing to a node, with a payload or as failed, leaves each of its waiters with less to wait for. */
  lemma PublishLowersUnmet(s: State, id: Id, payload: Option<Payload>, cleanup: bool, r: Rid)
    requires Reachable(s) && s.mode.Running? && r in ListOf(s.f, Blocked(id))
    ensures r in s.reqs
    ensures var t := Apply(s, Publish(id, payload, cleanup));
      && r in t.reqs && Resolved(t.g, id) && r in ListOf(t.f, Work)
      && |Unmet(t.g, t.reqs[r])| < |Unmet(s.g, s.reqs[r])|
  {
    ListFacts(s, Blocked(id), r);
    RequestFacts(s, r);
    var h := Store(s.g, id, payload, cleanup);
    forall d: Id ensures Resolved(h, d) == (d == id || Resolved(s.g, d)) {}
    ProperSubsetSmaller(Unmet(h, s.reqs[r]), Unmet(s.g, s.reqs[r]), id);
  }
}
