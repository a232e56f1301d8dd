/**
 The event loop with its memory, its linked lists and its counters, method by method, proved against
 the transition system of LoopSteps.
*/
module EventLoop {
  import opened Sequences
  import opened LoopState
  import opened LoopSteps
  import opened Filing
  import opened Counting
  import opened Waiting
  import opened LoopInvariant
  import opened LoopEvents
  import opened LoopRuns
  import opened PublishOutcome
  import opened Teardown
  import opened LoopTheorems
  import opened LinkedMemory
  import opened ScanReasons

  /** The multimaps are the same. */
  ghost predicate SameMaps(f: Files, h: Files) {
    && ListOf(h, Queued) == ListOf(f, Queued) && ListOf(h, Inactive) == ListOf(f, Inactive)
    && ListOf(h, Refresh) == ListOf(f, Refresh) && ListOf(h, RateLimited) == ListOf(f, RateLimited)
    && ListOf(h, Root) == ListOf(f, Root)
  }

  /** Live, in no linked list and in no list of cancelled requests. */
  ghost predicate InHand(s: State, r: Rid) {
    r in s.reqs && Outside(s.f, r, Hand) && r !in s.cancelled && r !in s.cancelWork
  }

  /** The multimap of `p` is sorted, and holds live requests. */
  ghost predicate Orderly(s: State, p: Place) {
    KeysSorted(ListOf(s.f, p), s.reqs) && forall x <- ListOf(s.f, p) :: x in s.reqs
  }

  ghost predicate Unlisted(s: State, p: Place, r: Rid) {
    r !in ListOf(s.f, p)
  }

  /** A live request in no list, with the multimaps it may be started into in order. */
  ghost predicate Startable(s: State, r: Rid) {
    && InHand(s, r) && Unlisted(s, Queued, r) && Unlisted(s, RateLimited, r)
    && Orderly(s, Queued) && Orderly(s, RateLimited)
  }

  /** It may also be enqueued or blocked. */
  ghost predicate Loose(s: State, r: Rid) {
    Startable(s, r) && r in s.hist && r != 0 && Listed(s.f) && Orderly(s, Inactive) && Orderly(s, Refresh)
  }

  lemma HandLoose(s: State, r: Rid)
    requires Filed(s) && r in s.reqs && s.f.place[r] == Hand && r !in s.cancelled && r !in s.cancelWork
    ensures Loose(s, r)
  {
    HandOutside(s.f, r);
    AllOrderly(s);
    assert r !in ListOf(s.f, Queued) && r !in ListOf(s.f, RateLimited);
  }

  lemma AllOrderly(s: State)
    requires Filed(s)
    ensures Orderly(s, Queued) && Orderly(s, RateLimited) && Orderly(s, Inactive) && Orderly(s, Refresh)
    ensures Orderly(s, Root)
  {
    forall p: Place | ByKey(p) ensures Orderly(s, p) {
      forall x <- ListOf(s.f, p) ensures x in s.reqs { PlaceOf(s, p, x); }
    }
  }

  /** Pinned and admitted, or destroyed if it was cancelled while pending. */
  ghost predicate Decidable(s: State, r: Rid) {
    && Loose(s, r)
    && (!s.reqs[r].isCancelled ==>
          Loose(Retain(s, r), r) && forall d <- s.reqs[r].deps :: d in Retain(s, r).g.nodes)
  }

  /** A cancelled request, in the multimap its fields tell. */
  ghost predicate CancelledHere(s: State, r: Rid) {
    && s.cancelWork != [] && r in s.f.place && InHand(Take(s, r).(cancelWork := s.cancelWork[1..]), r)
    && var q := s.reqs[r];
    && s.f.place[r] == Chosen(q)
    && r in ListOf(s.f, s.f.place[r])
  }

  /** The head of the pending snapshot can be taken off it and decided about. */
  lemma PendingDecidable(s: State)
    requires Inv(s) && Open(s.mode) && ListOf(s.f, Work) != []
    ensures var r := ListOf(s.f, Work)[0]; Head(s, Work, r) && s.f.place[r] == Work && Decidable(Taken(s, r), r)
  {
    var r := ListOf(s.f, Work)[0];
    HeadFacts(s, Work);
    PlaceOf(s, Work, r);
    TakenSound(s, r);
    HandLoose(Taken(s, r), r);
    RetainLoose(Taken(s, r), r);
  }

  /** The head of the cancelled snapshot is where its fields tell, and in no other list. */
  lemma CancelledIsHere(s: State)
    requires Inv(s) && s.cancelWork != []
    ensures CancelledHere(s, s.cancelWork[0]) && s.cancelWork[0] in s.hist
  {
    var r := s.cancelWork[0];
    CancelledPlace(s, r);
    CancelledKind(s, r);
    TakenOutside(s, r);
    CancelledOnce(s, r);
  }

  lemma CancelledKind(s: State, r: Rid)
    requires Filed(s) && r in s.reqs && s.f.place[r] in {Queued, Inactive, Refresh}
    ensures s.f.place[r] == Chosen(s.reqs[r])
    ensures r in ListOf(s.f, s.f.place[r]) && r in s.hist
  {
    assert Proper(s.reqs[r], s.f.place[r]);
  }

  lemma CancelledOnce(s: State, r: Rid)
    requires Filed(s) && s.cancelWork != [] && s.cancelWork[0] == r
    ensures r !in s.cancelWork[1..] && r !in s.cancelled
  {
    var l := s.cancelWork + s.cancelled;
    HeadOnce(l);
    assert l[0] == r && l[1..] == s.cancelWork[1..] + s.cancelled;
  }

  lemma HeadOnce(l: seq<Rid>)
    requires l != [] && Distinct(l)
    ensures l[0] !in l[1..]
  {
    forall i | 0 <= i < |l[1..]| ensures l[1..][i] != l[0] { assert l[1..][i] == l[i + 1]; }
  }

  lemma CancelledNext(s: State, events: seq<Event>, t: State)
    requires Reachable(s) && Run(s, events, t) && t.mode.Draining? && t.cancelWork != []
    ensures CancelledHere(t, t.cancelWork[0]) && t.cancelWork[0] in t.hist
  {
    ReachableRun(s, events, t);
    ReachableInv(t);
    CancelledIsHere(t);
  }

  lemma CancelledShape(s: State, r: Rid)
    requires s.mode.Draining? && s.cancelWork != [] && r == s.cancelWork[0] && CancelledHere(s, r) && r in s.hist
    ensures var u := DoDropCancelled(s, r);
      && Enabled(s, DropCancelled(r)) && u == Apply(s, DropCancelled(r)) && u.mode == s.mode
      && u.cancelled == s.cancelled
      && u.cancelWork == s.cancelWork[1..] && u.destroyed + u.cancelWork == s.destroyed + s.cancelWork
      && ListOf(u.f, Work) == ListOf(s.f, Work) && ListOf(u.f, Pending) == ListOf(s.f, Pending)
  {
    assert [r] + s.cancelWork[1..] == s.cancelWork;
  }

  lemma DestroyedGone(s: State)
    requires Reachable(s)
    ensures forall r <- s.destroyed :: r !in s.reqs
  {
    ReachableInv(s);
  }

  lemma BetweenLists(s: State)
    requires Reachable(s) && s.mode.Running?
    ensures ListOf(s.f, Work) == [] && s.cancelWork == [] && Enabled(s, TakeLists)
  {
    ReachableInv(s);
  }

  lemma PendingNext(s: State, events: seq<Event>, t: State)
    requires Reachable(s) && Run(s, events, t) && t.mode.Draining? && ListOf(t.f, Work) != []
    ensures var r := ListOf(t.f, Work)[0]; Head(t, Work, r) && t.f.place[r] == Work && Decidable(Taken(t, r), r)
  {
    ReachableRun(s, events, t);
    ReachableInv(t);
    PendingDecidable(t);
  }

  /** One more event. */
  lemma RunExtend(s: State, events: seq<Event>, t: State, e: Event)
    requires Run(s, events, t) && Enabled(t, e)
    ensures Run(s, events + [e], Apply(t, e))
  {
    LastEvent(t, e);
    RunAppend(s, events, t, [e], Apply(t, e));
  }

  lemma RetainLoose(s: State, r: Rid)
    requires Sound(s, true) && r in s.reqs && s.f.place[r] == Hand && r !in s.cancelled && r !in s.cancelWork
    ensures Loose(Retain(s, r), r) && forall d <- s.reqs[r].deps :: d in Retain(s, r).g.nodes
  {
    RetainSound(s, r);
    RetainShape(s, r);
    HandLoose(Retain(s, r), r);
    RetainTracked(s, r);
  }

  /** A request that was never submitted is nowhere. */
  lemma SubmitFresh(s: State, r: Rid)
    requires Reachable(s) && r !in s.submitted
    ensures r !in s.reqs && Outside(s.f, r, Hand) && r !in s.cancelled && r !in s.cancelWork
  {
    ReachableInv(s);
    assert r !in s.cancelWork + s.cancelled;
    forall p: Place ensures r !in ListOf(s.f, p) {
      if r in ListOf(s.f, p) { PlaceOf(s, p, r); }
    }
  }

  /** A request that waits in a multimap and was not cancelled is in no linked list. */
  lemma CancelFresh(s: State, r: Rid)
    requires Reachable(s) && Enabled(s, Cancel(r))
    ensures r != 0 && r !in s.cancelled && r !in s.cancelWork && (!s.reqs[r].isPending ==> InHand(s, r))
  {
    ReachableInv(s);
    CancelFacts(s, r);
    CancelUnlisted(s, r);
    if !s.reqs[r].isPending { MappedOutside(s, r); }
  }

  lemma CancelFacts(s: State, r: Rid)
    requires Enabled(s, Cancel(r))
    ensures r in s.reqs && r in s.f.place && !s.reqs[r].isCancelled
    ensures s.reqs[r].isPending || ByKey(s.f.place[r])
  {}

  lemma MappedOutside(s: State, r: Rid)
    requires Filed(s) && r in s.f.place && ByKey(s.f.place[r])
    ensures Outside(s.f, r, Hand)
  {
    HandOutside(s.f, r);
  }

  lemma CancelUnlisted(s: State, r: Rid)
    requires Filed(s) && r in s.reqs && !s.reqs[r].isCancelled
    ensures r !in s.cancelled && r !in s.cancelWork && r != 0
  {
    assert r !in s.cancelWork + s.cancelled;
  }

  /** Whoever holds the last reference, nobody waits on the node. */
  lemma HeldLast(s: State, id: Id)
    requires Reachable(s) && Enabled(s, DropReference(id))
    ensures id in s.g.nodes && s.g.nodes[id].refcnt == 1 ==> ListOf(s.f, Blocked(id)) == []
  {
    ReachableInv(s);
    if id in s.g.nodes && s.g.nodes[id].refcnt == 1 && ListOf(s.f, Blocked(id)) != [] {
      var r := ListOf(s.f, Blocked(id))[0];
      PlaceOf(s, Blocked(id), r);
      WaiterPins(s, r, id);
    }
  }

  lemma WaiterPins(s: State, r: Rid, id: Id)
    requires Tracked(s, true) && r in s.reqs && s.f.place[r] == Blocked(id)
    ensures Pins(s.reqs)[id] >= 1
  {
    assert Waits(s.g, s.reqs[r], s.f.place[r], s.hist[r], true);
    PinsHold(s.reqs, r, id);
  }

  /** The head of the detached waiters. */
  ghost predicate WaiterHere(s: State, r: Rid) {
    && Head(s, Work, r) && s.f.place[r] == Work && r != 0 && InHand(Take(s, r), r)
  }

  lemma WorkHeadHere(s: State)
    requires Inv(s) && ListOf(s.f, Work) != []
    ensures WaiterHere(s, ListOf(s.f, Work)[0])
  {
    var r := ListOf(s.f, Work)[0];
    HeadFacts(s, Work);
    PlaceOf(s, Work, r);
    TakenOutside(s, r);
    WorkNotCancelled(s, r);
  }

  lemma TakenOutside(s: State, r: Rid)
    requires Filed(s) && r in s.reqs && s.f.place[r] != Hand
    ensures Outside(Take(s, r).f, r, Hand)
  {
    UnfileListed(s.f, r);
    HandOutside(Unfile(s.f, r), r);
  }

  lemma WorkNotCancelled(s: State, r: Rid)
    requires Filed(s) && r in s.reqs && s.f.place[r] == Work
    ensures r !in s.cancelled && r !in s.cancelWork && r != 0
  {
    assert Proper(s.reqs[r], Work);
    assert r !in s.cancelWork + s.cancelled;
  }

  /** The same events lead to the same state. */
  lemma {:induction false} RunUnique(s: State, events: seq<Event>, t: State, u: State)
    requires Run(s, events, t) && Run(s, events, u)
    ensures t == u
    decreases events
  {
    if events == [] {
    } else {
      RunUnique(Apply(s, events[0]), events[1..], t, u);
    }
  }

  /** What publish leaves, told from its events. */
  lemma PublishResult(s: State, id: Id, payload: Option<Payload>, cleanup: bool, t: State)
    requires Reachable(s) && s.mode.Running?
    requires Run(s, [Publish(id, payload, cleanup)] + PublishEvents(ListOf(s.f, Blocked(id))), t)
    ensures forall r <- ListOf(s.f, Blocked(id)) :: r in s.reqs
    ensures var w := ListOf(s.f, Blocked(id));
      if payload == None then t.failures == s.failures + Notified(s.reqs, w) && t.destroyed == s.destroyed + w
      else ListOf(t.f, Pending) == Reverse(w) + ListOf(s.f, Pending) && t.destroyed == s.destroyed
    ensures payload.Some? ==>
      Carries(t.g, id, payload.value, cleanup) && t.g.cleaned == s.g.cleaned + Replaced(s.g, id)
    ensures payload == None && id in t.g.nodes ==> t.g.nodes[id].failed && t.g.nodes[id].payload == None
  {
    var events := [Publish(id, payload, cleanup)] + PublishEvents(ListOf(s.f, Blocked(id)));
    forall r <- ListOf(s.f, Blocked(id)) ensures r in s.reqs { ListFacts(s, Blocked(id), r); }
    if payload == None {
      var u := PublishNullFailsWaiters(s, id, cleanup);
      RunUnique(s, events, t, u);
    } else {
      var u := PublishWakesWaiters(s, id, payload.value, cleanup);
      RunUnique(s, events, t, u);
    }
  }

  lemma PublishSplit(w: seq<Rid>, before: seq<Event>)
    requires w != []
    ensures before + PublishEvents(w) == before + [PublishNext(w[0])] + PublishEvents(w[1..])
  {
    assert PublishEvents(w) == [PublishNext(w[0])] + PublishEvents(w[1..]);
  }

  lemma WaiterNext(s: State, events: seq<Event>, t: State)
    requires Reachable(s) && Run(s, events, t) && t.mode.Publishing? && ListOf(t.f, Work) != []
    ensures WaiterHere(t, ListOf(t.f, Work)[0]) && t.mode.id in t.g.nodes
  {
    ReachableRun(s, events, t);
    ReachableInv(t);
    NextWaiter(t);
    WorkHeadHere(t);
  }

  /** The head of a multimap that is scanned. */
  ghost predicate ScanHere(s: State, p: Place, r: Rid) {
    p in {Root, Refresh, Inactive} && Head(s, p, r) && s.f.place[r] == p && Startable(Take(s, r), r)
  }

  function Refiled(s: State, r: Rid, key: Time, pos: nat): State
    requires r in s.reqs && r in s.f.place
  {
    Put(Rekey(Take(s, r), r, key), r, RateLimited, pos)
  }

  /** The event of one turn of a scan, and what it leaves. */
  ghost predicate ScanTurn(s: State, p: Place, r: Rid, snapshot: Time, e: Event, t: State) {
    && e.Scan? && e.p == p && e.r == r && e.snapshot == snapshot && r in s.reqs && r in s.f.place
    && ScanFits(s, r, e.first, e.firstNow, e.poll, e.now, e.launch)
    && t == DoScan(s, r, e.first, e.firstNow, e.poll, e.now, e.launch)
  }

  /** The scan went no further because of `r`. */
  ghost predicate Stopped(s: State, r: Rid, e: Event) {
    && e.Scan? && r in s.reqs && !(s.reqs[r].rateLimited && e.first > 0) && !Ready(s, r, e.poll, e.now)
  }

  /** Only transfers that are under way have been cancelled since the last drain. */
  ghost predicate CancelsQueued(s: State) {
    forall r <- s.cancelled :: r in s.f.place && s.f.place[r] == Queued
  }

  /** The loop thread may scan the multimap of `p`, which holds no cancelled request. */
  ghost predicate Scannable(s: State, p: Place) {
    && p in {Root, Refresh, Inactive} && CancelsQueued(s) && s.cancelWork == []
    && (if p == Root then s.mode == Scanning else s.mode == Running)
  }

  /** The run went on from `before` with turns of a scan of `p`. */
  ghost predicate ScannedOn(before: seq<Event>, events: seq<Event>, p: Place) {
    |before| <= |events| && events[..|before|] == before && ScansOf(events[|before|..], p)
  }

  lemma ScannedMore(before: seq<Event>, events: seq<Event>, p: Place, more: seq<Event>)
    requires ScannedOn(before, events, p) && ScannedOn(events, more, p)
    ensures ScannedOn(before, more, p)
  {
    assert more[..|before|] == more[..|events|][..|before|];
    assert more[|before|..] == events[|before|..] + more[|events|..];
  }

  lemma ScannedOne(before: seq<Event>, e: Event)
    requires e.Scan?
    ensures ScannedOn(before, before + [e], e.p)
  {}

  lemma StoppedStays(s: State, before: seq<Event>, t: State, e: Event)
    requires e.Scan? && Reachable(s) && Run(s, before, t) && Scannable(t, e.p)
    requires ListOf(t.f, e.p) != [] && e.r == ListOf(t.f, e.p)[0] && Stopped(t, e.r, e)
    ensures Stays(t, before + [e], e.p, e.now)
  {
    ReachableRun(s, before, t);
    ListFacts(t, e.p, e.r);
    SecondCheckPasses(t, e.r);
    assert (before + [e])[|before|] == e;
    assert t.reqs[e.r].rateLimited && e.poll > 0 ==> HoldsBack((before + [e])[|before|], e.p, e.r);
  }

  /** Everything in the detached multimap, and everything refiled, has its reason once it has been scanned. */
  lemma AfterRoot(s: State, before: seq<Event>, u: State, events: seq<Event>, t: State, at: Time)
    requires Reachable(s) && Run(s, before, u) && Run(s, events, t) && ScannedOn(before, events, Root)
    requires ListOf(u.f, RateLimited) == [] && Stays(t, events, Root, at)
    ensures AllExcused(t, events, at)
  {
    var rest := events[|before|..];
    assert events == before + rest;
    RunRest(s, before, u, rest, t);
    ReachableRun(s, before, u);
    ReachableRun(s, events, t);
    ScanTurnsAway(u, before, rest, t);
    RootExcused(t, events, at);
  }

  lemma AfterScan(s: State, before: seq<Event>, u: State, events: seq<Event>, t: State, p: Place, at: Time)
    requires Reachable(s) && Run(s, before, u) && Run(s, events, t) && ScannedOn(before, events, p)
    requires p in {Refresh, Inactive} && AllExcused(u, before, at)
    ensures AllExcused(t, events, at)
  {
    var rest := events[|before|..];
    assert events == before + rest;
    RunRest(s, before, u, rest, t);
    ReachableRun(s, before, u);
    ScanExcuses(u, before, rest, t, at);
  }

  lemma AfterInactive(s: State, before: seq<Event>, u: State, events: seq<Event>, t: State, due: Time)
    requires Reachable(s) && Run(s, before, u) && Run(s, events, t) && ScannedOn(before, events, Inactive)
    requires Stays(u, before, Refresh, due)
    ensures Stays(t, events, Refresh, due)
  {
    var rest := events[|before|..];
    assert events == before + rest;
    RunRest(s, before, u, rest, t);
    ReachableRun(s, before, u);
    ScanStays(u, before, rest, t, due);
  }

  lemma ScanNext(s: State, events: seq<Event>, t: State, p: Place)
    requires Reachable(s) && Run(s, events, t) && Scannable(t, p) && ListOf(t.f, p) != []
    ensures ScanHere(t, p, ListOf(t.f, p)[0]) && !t.reqs[ListOf(t.f, p)[0]].isCancelled
  {
    ReachableRun(s, events, t);
    ReachableInv(t);
    HeadFacts(t, p);
    ScanHeadHere(t, p, ListOf(t.f, p)[0]);
  }

  lemma ScanHeadHere(s: State, p: Place, r: Rid)
    requires Filed(s) && Head(s, p, r) && Scannable(s, p)
    ensures ScanHere(s, p, r) && !s.reqs[r].isCancelled
  {
    PlaceOf(s, p, r);
    NoCancelDue(s, r);
    TakeFiled(s, r);
    HandLoose(Take(s, r), r);
  }

  lemma NoCancelDue(s: State, r: Rid)
    requires Filed(s) && r in s.reqs && s.f.place[r] in {Root, Refresh, Inactive}
    requires CancelsQueued(s) && s.cancelWork == [] && Open(s.mode)
    ensures !s.reqs[r].isCancelled
  {
    assert s.cancelWork + s.cancelled == s.cancelled;
    assert Proper(s.reqs[r], s.f.place[r]);
  }

  lemma ScanEnabled(s: State, p: Place, r: Rid, snapshot: Time, e: Event, t: State)
    requires Scannable(s, p) && ScanTurn(s, p, r, snapshot, e, t) && Head(s, p, r) && !s.reqs[r].isCancelled
    requires s.f.place[r] == p && (p == Root ==> snapshot >= s.reqs[r].key)
    ensures Enabled(s, e) && Apply(s, e) == t && Scannable(t, p)
  {
    ScanModes(s, r, e);
    ScanPlaces(s, r, e);
    ScanApplies(s, e);
  }

  lemma ScanApplies(s: State, e: Event)
    requires e.Scan? && Enabled(s, e)
    ensures Apply(s, e) == DoScan(s, e.r, e.first, e.firstNow, e.poll, e.now, e.launch)
  {}

  lemma ScanModes(s: State, r: Rid, e: Event)
    requires e.Scan? && r in s.reqs && r in s.f.place
    ensures var t := DoScan(s, r, e.first, e.firstNow, e.poll, e.now, e.launch);
      t.mode == s.mode && t.cancelled == s.cancelled && t.cancelWork == s.cancelWork
  {}

  lemma ScanPlaces(s: State, r: Rid, e: Event)
    requires e.Scan? && r in s.reqs && r in s.f.place
    ensures var t := DoScan(s, r, e.first, e.firstNow, e.poll, e.now, e.launch);
      forall x <- s.f.place :: x != r ==> x in t.f.place && t.f.place[x] == s.f.place[x]
  {}

  /** The head of the rate-limited multimap, refiled while the other one was detached. */
  ghost predicate MergeHere(s: State, r: Rid) {
    Head(s, RateLimited, r) && s.f.place[r] == RateLimited && Orderly(Take(s, r), Root)
  }

  lemma MergeNext(s: State, events: seq<Event>, t: State)
    requires Reachable(s) && Run(s, events, t) && ListOf(t.f, RateLimited) != []
    ensures MergeHere(t, ListOf(t.f, RateLimited)[0])
  {
    ReachableRun(s, events, t);
    ReachableInv(t);
    HeadFacts(t, RateLimited);
    MergeHeadHere(t, ListOf(t.f, RateLimited)[0]);
  }

  lemma MergeHeadHere(s: State, r: Rid)
    requires Filed(s) && Head(s, RateLimited, r)
    ensures MergeHere(s, r)
  {
    PlaceOf(s, RateLimited, r);
    TakeFiled(s, r);
    AllOrderly(Take(s, r));
  }

  lemma BetweenScans(s: State)
    requires Reachable(s) && s.mode.Running?
    ensures ListOf(s.f, Root) == [] && s.cancelWork == [] && Enabled(s, DetachRate)
  {
    ReachableInv(s);
  }

  /** The inactive multimap is sorted, and its head waits for nothing. */
  /** With a slot free and no rate limit at the head, the reason why a scan stopped is the time. */
  lemma NothingDue(s: State, events: seq<Event>, p: Place, due: Time)
    requires Reachable(s) && Open(s.mode) && Stays(s, events, p, due) && p in {Refresh, Inactive}
    ensures var l := ListOf(s.f, p);
      && (l == [] || l[0] in s.reqs)
      && (l != [] && |ListOf(s.f, Queued)| < s.maxConcurrent && !s.reqs[l[0]].rateLimited ==>
        forall r <- l :: r in s.reqs && due < s.reqs[r].key)
  {
    var l := ListOf(s.f, p);
    if l != [] {
      ListFacts(s, p, l[0]);
      MapsSorted(s, p);
      forall r <- l ensures r in s.reqs { ListFacts(s, p, r); }
    }
  }

  /** A request out of its multimap, with those it may go to in order. */
  ghost predicate Refilable(s: State, r: Rid) {
    && InHand(s, r) && Orderly(s, RateLimited) && Orderly(s, Inactive) && Orderly(s, Refresh)
    && Unlisted(s, RateLimited, r) && Unlisted(s, Inactive, r) && Unlisted(s, Refresh, r)
  }

  /**
   What `s` becomes once the request `r`, with the fields `q` it had in the queue, has been dealt with,
   if the multimap may take it at the place chosen.
  */
  ghost function Conclusion(s: State, r: Rid, q: Request, c: Completion): Option<State>
    requires r in s.reqs
  {
    var u, key := SetReq(s, r, Completed(q, c)), Completed(q, c).key;
    match OutcomeOf(q, c)
    case TooMany => if Fits(s, RateLimited, key, c.pos) then Some(Put(u, r, RateLimited, c.pos)) else None
    case Finished => Some(Destroy(u, r))
    case _ =>
      if Fits(s, EnqueuePlace(q), key, c.pos) then Some(Put(Cleanup(u, r), r, EnqueuePlace(q), c.pos)) else None
  }

  /** A finished transfer: whose it is, and what libcurl, the clock and the callbacks say. */
  datatype Message = Message(r: Rid, c: Completion)

  function Senders(messages: seq<Message>): seq<Rid> {
    seq(|messages|, i requires 0 <= i < |messages| => messages[i].r)
  }

  /** The message is about a queued request that is not cancelled; nobody asks a missing on_retry. */
  ghost predicate MessageFits(s: State, msg: Message) {
    && msg.r in ListOf(s.f, Queued) && msg.r in s.reqs && !s.reqs[msg.r].isCancelled
    && !(msg.c.ok && msg.c.tooMany)
    && !CallsMissingRetry(s.reqs[msg.r], msg.c)
  }

  /** The messages from the `i`-th on fit. */
  ghost predicate AllFit(s: State, messages: seq<Message>, i: nat) {
    forall j :: i <= j < |messages| ==> MessageFits(s, messages[j])
  }

  /** The first `i` messages, dealt with in order. */
  ghost predicate Completes(events: seq<Event>, messages: seq<Message>, i: nat) {
    |events| == i <= |messages| && forall j :: 0 <= j < i ==> events[j].Complete? && events[j].r == messages[j].r
  }

  lemma CompletesMore(events: seq<Event>, e: Event, messages: seq<Message>, i: nat)
    requires Completes(events, messages, i) && i < |messages| && e.Complete? && e.r == messages[i].r
    ensures Completes(events + [e], messages, i + 1)
  {}

  ghost predicate CompleteHere(s: State, r: Rid) {
    && r in s.reqs && r in s.f.place && s.f.place[r] == Queued && r in ListOf(s.f, Queued) && Refilable(Take(s, r), r)
  }

  lemma CompleteIsHere(s: State, events: seq<Event>, t: State, msg: Message)
    requires Reachable(s) && Run(s, events, t) && t.mode.Running? && MessageFits(t, msg)
    ensures CompleteHere(t, msg.r)
  {
    ReachableRun(s, events, t);
    ReachableInv(t);
    QueuedRefilable(t, msg.r);
  }

  lemma QueuedRefilable(s: State, r: Rid)
    requires Filed(s) && r in ListOf(s.f, Queued) && r in s.reqs && !s.reqs[r].isCancelled
    ensures CompleteHere(s, r)
  {
    PlaceOf(s, Queued, r);
    TakeFiled(s, r);
    HandLoose(Take(s, r), r);
    HandUnlisted(Take(s, r), r);
  }

  lemma HandUnlisted(s: State, r: Rid)
    requires Listed(s.f) && r in s.f.place && s.f.place[r] == Hand
    ensures Unlisted(s, RateLimited, r) && Unlisted(s, Inactive, r) && Unlisted(s, Refresh, r)
  {}

  lemma CompletedEvent(s: State, msg: Message, c: Completion)
    requires s.mode.Running? && CompleteHere(s, msg.r)
    requires MessageFits(s, msg) && c == msg.c.(pos := c.pos) && CompleteFits(s, msg.r, c)
    ensures Enabled(s, Complete(msg.r, c)) && Apply(s, Complete(msg.r, c)) == DoComplete(s, msg.r, c)
    ensures DoComplete(s, msg.r, c).mode == s.mode
  {}

  /** Completing one request leaves the others queued as they were. */
  lemma OthersFit(s: State, r: Rid, c: Completion, messages: seq<Message>, i: nat)
    requires i < |messages| && messages[i].r == r && Distinct(Senders(messages)) && CompleteHere(s, r)
    requires AllFit(s, messages, i)
    ensures AllFit(DoComplete(s, r, c), messages, i + 1)
  {
    forall j | i < j < |messages| ensures MessageFits(DoComplete(s, r, c), messages[j]) {
      assert Senders(messages)[j] != Senders(messages)[i];
      assert MessageFits(s, messages[j]);
      CompleteElsewhere(s, r, c, messages[j].r);
    }
  }

  lemma CompleteElsewhere(s: State, r: Rid, c: Completion, x: Rid)
    requires CompleteHere(s, r) && x != r && x in s.reqs && x in ListOf(s.f, Queued)
    ensures var t := DoComplete(s, r, c); x in ListOf(t.f, Queued) && x in t.reqs && t.reqs[x] == s.reqs[x]
  {
    StillIn(ListOf(s.f, Queued), r, x);
    CompleteQueue(s, r, c);
  }

  lemma CompleteQueue(s: State, r: Rid, c: Completion)
    requires r in s.reqs && r in s.f.place && s.f.place[r] == Queued
    ensures ListOf(DoComplete(s, r, c).f, Queued) == Without(ListOf(s.f, Queued), r)
  {}

  lemma {:induction false} StillIn(l: seq<Rid>, r: Rid, x: Rid)
    requires x in l && x != r
    ensures x in Without(l, r)
  {
    if l[0] == r || l[0] == x {
    } else {
      StillIn(l[1..], r, x);
    }
  }

  /** Teardown has emptied the first `k` containers. */
  ghost predicate Emptying(s: State, k: nat) {
    s.mode.Closing? && EmptyBefore(s.f, k)
  }

  /** The head of a container that is being emptied. */
  ghost predicate CloseHere(s: State, p: Place, r: Rid) {
    Head(s, p, r) && s.f.place[r] == p && r in ListOf(s.f, p) && InHand(Take(s, r), r)
  }

  lemma CloseNextHere(s: State, events: seq<Event>, t: State, p: Place)
    requires Reachable(s) && Run(s, events, t) && !Open(t.mode) && ListOf(t.f, p) != []
    ensures CloseHere(t, p, ListOf(t.f, p)[0])
  {
    ReachableRun(s, events, t);
    ReachableInv(t);
    HeadFacts(t, p);
    CloseHeadHere(t, p, ListOf(t.f, p)[0]);
  }

  lemma CloseHeadHere(s: State, p: Place, r: Rid)
    requires Filed(s) && Head(s, p, r) && s.cancelled == [] && s.cancelWork == []
    ensures CloseHere(s, p, r)
  {
    PlaceOf(s, p, r);
    TakeFiled(s, r);
    HandOutside(Take(s, r).f, r);
  }

  lemma CloseNextTurn(s: State, p: Place, r: Rid)
    requires Emptying(s, ClosingRank(p)) && CloseHere(s, p, r) && p in {Queued, Inactive, Refresh, RateLimited, Pending}
    requires p == Pending ==> s.undrained == []
    ensures Enabled(s, CloseNext(p, r)) && Apply(s, CloseNext(p, r)) == Destroy(Take(s, r), r)
    ensures var t := Destroy(Take(s, r), r); Emptying(t, ClosingRank(p)) && |ListOf(t.f, p)| < |ListOf(s.f, p)|
    ensures Destroy(Take(s, r), r).undrained == s.undrained
  {
    var l := ListOf(s.f, p);
    assert Without(l, r) == l[1..];
  }

  lemma ClosedOne(s: State, p: Place)
    requires Emptying(s, ClosingRank(p)) && ListOf(s.f, p) == []
    requires p in {Queued, Inactive, Refresh, RateLimited, Pending}
    ensures Emptying(s, ClosingRank(p) + 1)
  {}

  lemma ClosingWaiterHere(s: State, events: seq<Event>, t: State)
    requires Reachable(s) && Run(s, events, t) && t.mode.ClosingNode? && ListOf(t.f, Work) != []
    ensures WaiterHere(t, ListOf(t.f, Work)[0])
  {
    ReachableRun(s, events, t);
    ReachableInv(t);
    WorkHeadHere(t);
  }

  lemma CloseWaiterTurn(s: State, r: Rid)
    requires s.mode.ClosingNode? && WaiterHere(s, r)
    ensures Enabled(s, CloseWaiter(r)) && Apply(s, CloseWaiter(r)) == Destroy(Abort(Take(s, r), r), r)
    ensures var t := Destroy(Abort(Take(s, r), r), r);
      && t.mode == s.mode && ListOf(t.f, Work) == ListOf(s.f, Work)[1..]
      && (EmptyBefore(s.f, 5) ==> EmptyBefore(t.f, 5)) && t.g.nodes.Keys <= s.g.nodes.Keys
  {
    ReleaseDepsFewer(s.g, Take(s, r).f, PinnedDeps(s.reqs[r]));
  }

  lemma CloseNodeTurn(s: State, events: seq<Event>, t: State, id: Id)
    requires Reachable(s) && !Open(s.mode) && s.undrained == [] && CloseSafe(s) && Run(s, events, t)
    requires Emptying(t, 5) && id in t.g.nodes && forall i <- t.g.nodes :: id <= i
    ensures Enabled(t, CloseNode(id)) && ListOf(t.f, Work) == []
    ensures EmptyBefore(Move(t.f, Blocked(id), Work), 5)
  {
    ReachableRun(s, events, t);
    StillSafe(s, events, t);
    ClosingQuiet(t);
    ContainersMoved(t.f, id);
  }

  lemma StillSafe(s: State, events: seq<Event>, t: State)
    requires Reachable(s) && !Open(s.mode) && CloseSafe(s) && Run(s, events, t)
    ensures CloseSafe(t) && t.undrained == s.undrained
  {
    ReachableInv(s);
    SafeAlong(s, events, t);
  }

  lemma ClosingQuiet(s: State)
    requires Reachable(s) && s.mode.Closing?
    ensures ListOf(s.f, Work) == []
  {
    ReachableInv(s);
  }

  lemma ContainersMoved(f: Files, id: Id)
    requires EmptyBefore(f, 5)
    ensures EmptyBefore(Move(f, Blocked(id), Work), 5)
  {}

  lemma CloseEraseTurn(s: State, events: seq<Event>, t: State)
    requires Reachable(s) && Run(s, events, t) && t.mode.ClosingNode? && ListOf(t.f, Work) == []
    ensures Enabled(t, CloseErase) && t.mode.id in t.g.nodes && ListOf(t.f, Blocked(t.mode.id)) == []
  {
    ReachableRun(s, events, t);
    ReachableInv(t);
  }

  class Loop {
    // memory and list heads; the multimaps are kept as the sequences a walk over them visits
    var reqs: map<Rid, ReqCell>
    var nodes: map<Id, NodeCell>
    var pendingRequests: Rid
    var cancelledRequests: Rid
    var queuedRequests: seq<Rid>
    var inactiveRequests: seq<Rid>
    var refreshRequests: seq<Rid>
    var rateLimitedRequests: seq<Rid>
    // the local variable root of move_inactive_requests_to_queue
    var detachedRequests: seq<Rid>

    var numQueued: int
    var numMulti: int
    var numInactive: int
    var numRefresh: int
    var maxConcurrent: nat

    // what the callbacks and the allocator have seen
    var cleanups: multiset<Payload>
    var failureCalls: seq<Rid>
    var freed: seq<Rid>

    // the clock, which never goes back
    var clock: Time

    // the abstract state this memory represents
    ghost var m: State

    /** Requests and nodes at their addresses are those of the abstract state. */
    ghost predicate Cells(s: State)
      reads this`reqs, this`nodes
    {
      SameReqs(reqs, s.reqs) && SameNodes(nodes, s.g.nodes)
    }

    /** The links through memory run through the abstract lists. */
    ghost predicate Links(s: State)
      reads this`reqs, this`nodes, this`pendingRequests, this`cancelledRequests
    {
      Linkage(reqs, nodes, s.f, pendingRequests, cancelledRequests, s.cancelled, s.cancelWork)
    }

    /** The multimaps and the counters beside them. */
    ghost predicate Mapped(f: Files)
      reads this`queuedRequests, this`inactiveRequests, this`refreshRequests, this`rateLimitedRequests
      reads this`detachedRequests, this`numQueued, this`numInactive, this`numRefresh
    {
      && queuedRequests == ListOf(f, Queued) && numQueued == |queuedRequests|
      && inactiveRequests == ListOf(f, Inactive) && numInactive == |inactiveRequests|
      && refreshRequests == ListOf(f, Refresh) && numRefresh == |refreshRequests|
      && rateLimitedRequests == ListOf(f, RateLimited) && detachedRequests == ListOf(f, Root)
    }

    ghost predicate Logs(s: State)
      reads this`cleanups, this`failureCalls, this`freed, this`numMulti, this`maxConcurrent
    {
      && cleanups == s.g.cleaned && failureCalls == s.failures && freed == s.destroyed
      && numMulti == s.numMulti && maxConcurrent == s.maxConcurrent
    }

    ghost predicate Rep()
      reads this`reqs, this`nodes, this`pendingRequests, this`cancelledRequests, this`queuedRequests
      reads this`inactiveRequests, this`refreshRequests, this`rateLimitedRequests, this`detachedRequests
      reads this`numQueued, this`numMulti, this`numInactive, this`numRefresh, this`maxConcurrent
      reads this`cleanups, this`failureCalls, this`freed, this`m
    {
      Cells(m) && Links(m) && Mapped(m.f) && Logs(m)
    }

    /** The memory has reached its next abstract state. */
    ghost method Become(s: State)
      requires Cells(s) && Links(s) && Mapped(s.f) && Logs(s)
      modifies this`m
      ensures Rep() && m == s
    {
      m := s;
    }

    /** Between two operations of the loop thread. */
    ghost predicate Valid()
      reads this`reqs, this`nodes, this`pendingRequests, this`cancelledRequests, this`queuedRequests
      reads this`inactiveRequests, this`refreshRequests, this`rateLimitedRequests, this`detachedRequests
      reads this`numQueued, this`numMulti, this`numInactive, this`numRefresh, this`maxConcurrent
      reads this`cleanups, this`failureCalls, this`freed, this`m
    {
      Rep() && Reachable(m) && m.mode.Running?
    }

    /** curl_event_loop_init. */
    constructor (limit: nat)
      ensures Valid() && m == Initial(limit)
    {
      reqs, nodes, pendingRequests, cancelledRequests := map[], map[], 0, 0;
      queuedRequests, inactiveRequests, refreshRequests, rateLimitedRequests := [], [], [], [];
      detachedRequests := [];
      numQueued, numMulti, numInactive, numRefresh, maxConcurrent := 0, 0, 0, 0, limit;
      cleanups, failureCalls, freed, clock := multiset{}, [], [], 0;
      m := Initial(limit);
      new;
      assert Run(Initial(limit), [], m);
    }

    // The rate manager, the callbacks and libcurl answer by `*`.

    /** macro_now. */
    method Now() returns (t: Time)
      modifies this`clock
      ensures old(clock) <= t == clock
    {
      var passed :| passed >= 0;
      clock := clock + passed;
      t := clock;
    }

    // ----- resource nodes

    /** res_get_or_create. */
    method GetOrCreateNode(id: Id)
      requires Rep()
      modifies this`nodes, this`m
      ensures Rep() && m == old(m).(g := GetOrCreate(old(m).g, id)) && id in nodes
    {
      if id !in nodes {
        NodeCreated(reqs, nodes, m.f, id);
        nodes := nodes[id := NodeCell(PLACEHOLDER, 0, 0)];
      }
      Become(m.(g := GetOrCreate(m.g, id)));
    }

    /** Unlink a node, run its cleanup and free it. */
    method EraseNode(id: Id)
      requires Rep() && id in nodes && ListOf(m.f, Blocked(id)) == []
      modifies this`nodes, this`cleanups, this`m
      ensures Rep() && m == old(m).(g := Erase(old(m).g, id))
    {
      var n := nodes[id].node;
      ghost var s := m;
      NodeErased(reqs, nodes, m.f, id);
      ErasedNodes(nodes, m.g, id);
      nodes := nodes - {id};
      if n.cleanup && n.payload.Some? {
        cleanups := cleanups + multiset{n.payload.value};
      }
      Become(m.(g := Erase(m.g, id)));
      assert cleanups == m.g.cleaned;
    }

    static lemma ErasedNodes(cells: map<Id, NodeCell>, g: Graph, id: Id)
      requires SameNodes(cells, g.nodes) && id in cells
      ensures SameNodes(cells - {id}, Erase(g, id).nodes) && cells[id].node == g.nodes[id]
      ensures var n := cells[id].node;
        Erase(g, id).cleaned
        == g.cleaned + if n.cleanup && n.payload.Some? then multiset{n.payload.value} else multiset{}
    {}

    /** Store new fields of a node. */
    method SetNode(id: Id, n: Node, ghost client: map<Id, int>)
      requires Rep() && id in nodes
      modifies this`nodes, this`m
      ensures Rep() && m == old(m).(g := old(m).g.(nodes := old(m).g.nodes[id := n], client := client))
      ensures nodes == old(nodes)[id := old(nodes)[id].(node := n)]
    {
      NodeChanged(reqs, nodes, m.f, id, n);
      nodes := nodes[id := nodes[id].(node := n)];
      Become(m.(g := m.g.(nodes := m.g.nodes[id := n], client := client)));
    }

    /** curl_event_res_release. */
    method ReleaseNode(id: Id)
      requires Rep()
      requires id in nodes && nodes[id].node.refcnt == 1 ==> ListOf(m.f, Blocked(id)) == []
      modifies this`nodes, this`cleanups, this`m
      ensures Rep() && m == old(m).(g := Release(old(m).g, id))
    {
      if id in nodes {
        ghost var g := m.g;
        var n := nodes[id].node;
        SetNode(id, n.(refcnt := n.refcnt - 1), Dropped(g, id).client);
        assert m.g == Dropped(g, id);
        if nodes[id].node.refcnt == 0 {
          EraseNode(id);
        }
      }
    }

    /** maybe_autorelease_owner. */
    method MaybeAutoreleaseOwner(id: Id)
      requires Rep() && id in nodes
      modifies this`nodes, this`cleanups, this`m
      ensures Rep() && m == old(m).(g := MaybeAutorelease(old(m).g, old(m).f, id))
    {
      var n := nodes[id];
      HeadTells(reqs, nodes, m.f, id);
      if n.node.autoRelease && n.node.refcnt == 1 && n.blockedHead == 0 {
        ReleaseNode(id);
      }
    }

    /** One turn of the loop below. */
    method ReleaseOneDep(d: Id)
      requires Rep()
      modifies this`nodes, this`cleanups, this`m
      ensures Rep() && m == old(m).(g := ReleaseDep(old(m).g, old(m).f, d))
    {
      if d in nodes {
        ghost var g := m.g;
        var n := nodes[d].node;
        SetNode(d, n.(refcnt := if n.refcnt > 0 then n.refcnt - 1 else n.refcnt), g.client);
        assert m.g == Unpinned(g, d);
        MaybeAutoreleaseOwner(d);
      }
    }

    /** curl_resource_release_request_deps. */
    method ReleaseRequestDeps(ds: seq<Id>)
      requires Rep()
      modifies this`nodes, this`cleanups, this`m
      ensures Rep() && m == old(m).(g := ReleaseDeps(old(m).g, old(m).f, ds))
    {
      var i := 0;
      while i < |ds|
        invariant 0 <= i <= |ds| && Rep()
        invariant m == old(m).(g := m.g)
        invariant ReleaseDeps(m.g, m.f, ds[i..]) == ReleaseDeps(old(m).g, old(m).f, ds)
      {
        assert ds[i..][1..] == ds[i + 1..];
        ReleaseOneDep(ds[i]);
        i := i + 1;
      }
    }

    method RetainOneDep(d: Id)
      requires Rep()
      modifies this`nodes, this`m
      ensures Rep() && m == old(m).(g := RetainDep(old(m).g, d))
    {
      ghost var g := m.g;
      GetOrCreateNode(d);
      var n := nodes[d].node;
      SetNode(d, n.(refcnt := n.refcnt + 1), g.client);
    }

    /** curl_resource_retain_request_deps. */
    method RetainRequestDeps(ds: seq<Id>)
      requires Rep()
      modifies this`nodes, this`m
      ensures Rep() && m == old(m).(g := RetainDeps(old(m).g, ds))
    {
      var i := 0;
      while i < |ds|
        invariant 0 <= i <= |ds| && Rep()
        invariant m == old(m).(g := m.g)
        invariant RetainDeps(m.g, ds[i..]) == RetainDeps(old(m).g, ds)
      {
        assert ds[i..][1..] == ds[i + 1..];
        RetainOneDep(ds[i]);
        i := i + 1;
      }
    }

    // ----- requests

    /** Store new fields of a request. */
    method SetRequest(r: Rid, q: Request)
      requires Rep() && r in reqs && (reqs[r].req.isCancelled ==> q.isCancelled)
      modifies this`reqs, this`m
      ensures Rep() && m == SetReq(old(m), r, q) && reqs == old(reqs)[r := old(reqs)[r].(req := q)]
    {
      var after := reqs[r := reqs[r].(req := q)];
      FieldsChanged(reqs, r, q, nodes, m.f, pendingRequests, cancelledRequests, m.cancelled, m.cancelWork);
      reqs := after;
      Become(SetReq(m, r, q));
    }

    /** curl_event_loop_request_cleanup. */
    method CleanupRequest(r: Rid)
      requires Rep() && r in reqs
      modifies this`reqs, this`numMulti, this`m
      ensures Rep() && m == Cleanup(old(m), r) && r in reqs && reqs.Keys == old(reqs).Keys
    {
      var q := reqs[r].req;
      if q.attached {
        SetRequest(r, q.(attached := false));
        numMulti := numMulti - 1;
        Become(m.(numMulti := m.numMulti - 1));
      }
    }

    /**
     curl_event_request_destroy: the request's memory goes with its pool. The code's last write, of
     NULL to the request's pool pointer, comes after that and lands in the memory just freed.
    */
    method DestroyRequest(r: Rid)
      requires Rep() && InHand(m, r)
      modifies this`reqs, this`nodes, this`numMulti, this`cleanups, this`freed, this`m
      ensures Rep() && m == Destroy(old(m), r) && r !in reqs
    {
      ghost var s := m;
      StripRequest(r);
      DestroyShape(s, m, r);
      FreeRequest(r);
    }

    /** Clean up the handle and hand back the pins. */
    method StripRequest(r: Rid)
      requires Rep() && r in m.reqs
      modifies this`reqs, this`nodes, this`numMulti, this`cleanups, this`m
      ensures Rep() && m == Cleanup(old(m), r).(g := ReleaseDeps(old(m).g, old(m).f, PinnedDeps(old(m).reqs[r])))
    {
      CleanupRequest(r);
      var q := reqs[r].req;
      if q.retained {
        ReleaseRequestDeps(q.deps);
      }
    }

    static lemma DestroyShape(s: State, u: State, r: Rid)
      requires r in s.reqs && u == Cleanup(s, r).(g := ReleaseDeps(s.g, s.f, PinnedDeps(s.reqs[r])))
      ensures Forget(u, r) == Destroy(s, r)
    {}

    method FreeRequest(r: Rid)
      requires Rep() && InHand(m, r)
      modifies this`reqs, this`freed, this`m
      ensures Rep() && m == Forget(old(m), r) && r !in reqs
    {
      FreedLinks(r);
      reqs := reqs - {r};
      freed := freed + [r];
      Become(Forget(m, r));
    }

    lemma FreedLinks(r: Rid)
      requires Links(m) && InHand(m, r)
      ensures Linkage(reqs - {r}, nodes, Forget(m, r).f, pendingRequests, cancelledRequests, m.cancelled, m.cancelWork)
    {
      Unlinked(reqs, reqs - {r}, r, nodes, m.f, pendingRequests, cancelledRequests, m.cancelled, m.cancelWork);
      ListsSame(reqs - {r}, nodes, m.f, Forget(m, r).f, pendingRequests, cancelledRequests, m.cancelled, m.cancelWork);
    }

    // ----- the multimaps

    /** macro_map_erase on the multimap that holds `r`, and the counter beside it. */
    method EraseFrom(p: Place, r: Rid)
      requires Rep() && r in m.f.place && m.f.place[r] == p && ByKey(p) && r in ListOf(m.f, p)
      modifies this`queuedRequests, this`inactiveRequests, this`refreshRequests, this`rateLimitedRequests
      modifies this`detachedRequests, this`numQueued, this`numInactive, this`numRefresh, this`m
      ensures Rep() && m == Take(old(m), r)
    {
      TakenLinks(r);
      Unmap(p, r);
      Become(Take(m, r));
    }

    method Unmap(p: Place, r: Rid)
      requires Mapped(m.f) && r in m.f.place && m.f.place[r] == p && ByKey(p) && r in ListOf(m.f, p)
      modifies this`queuedRequests, this`inactiveRequests, this`refreshRequests, this`rateLimitedRequests
      modifies this`detachedRequests, this`numQueued, this`numInactive, this`numRefresh
      ensures Mapped(Unfile(m.f, r))
    {
      ghost var h := Unfile(m.f, r);
      TakenLists(m.f, r);
      WithoutLength(ListOf(m.f, p), r);
      match p {
        case Queued =>
          queuedRequests := Without(queuedRequests, r);
          numQueued := numQueued - 1;
        case Inactive =>
          inactiveRequests := Without(inactiveRequests, r);
          numInactive := numInactive - 1;
        case Refresh =>
          refreshRequests := Without(refreshRequests, r);
          numRefresh := numRefresh - 1;
        case RateLimited => rateLimitedRequests := Without(rateLimitedRequests, r);
        case Root => detachedRequests := Without(detachedRequests, r);
        case _ => assert false;
      }
    }

    lemma TakenLinks(r: Rid)
      requires Links(m) && r in m.f.place && ByKey(m.f.place[r])
      ensures Links(Take(m, r))
    {
      TakenLists(m.f, r);
      ListsSame(reqs, nodes, m.f, Take(m, r).f, pendingRequests, cancelledRequests, m.cancelled, m.cancelWork);
    }

    static lemma TakenLists(f: Files, r: Rid)
      requires r in f.place
      ensures forall p: Place {:trigger ListOf(Unfile(f, r), p)} ::
        ListOf(Unfile(f, r), p) == if p == f.place[r] then Without(ListOf(f, p), r) else ListOf(f, p)
    {}

    static lemma {:induction false} WithoutLength(l: seq<Rid>, r: Rid)
      requires r in l
      ensures |Without(l, r)| == |l| - 1
    {
      if l[0] == r {
      } else {
        WithoutLength(l[1..], r);
      }
    }

    /** A place for `key` in a multimap; where equal keys go is the multimap's choice. */
    method PlaceFor(l: seq<Rid>, key: Time) returns (pos: nat)
      requires SameReqs(reqs, m.reqs) && KeysSorted(l, m.reqs) && forall r <- l :: r in m.reqs
      ensures FitsAt(l, m.reqs, key, pos)
    {
      var stored := map r | r in reqs :: reqs[r].req;
      assert stored == m.reqs;
      ghost var p := SortedPlace(l, m.reqs, key);
      pos :| pos <= |l| && FitsAt(l, stored, key, pos);
    }

    static lemma SortedPlace(l: seq<Rid>, reqs: map<Rid, Request>, key: Time) returns (pos: nat)
      requires KeysSorted(l, reqs) && forall r <- l :: r in reqs
      ensures FitsAt(l, reqs, key, pos)
    {
      pos := 0;
      while pos < |l| && reqs[l[pos]].key <= key
        invariant pos <= |l| && forall i :: 0 <= i < pos ==> reqs[l[i]].key <= key
      {
        pos := pos + 1;
      }
    }

    /** curl_event_request_insert into the multimap of `p`, and the counter beside it. */
    method InsertInto(p: Place, r: Rid) returns (pos: nat)
      requires Rep() && r in reqs && ByKey(p) && Orderly(m, p)
      modifies this`queuedRequests, this`inactiveRequests, this`refreshRequests, this`rateLimitedRequests
      modifies this`detachedRequests, this`numQueued, this`numInactive, this`numRefresh, this`m
      ensures Fits(old(m), p, old(m).reqs[r].key, pos) && Rep() && m == Put(old(m), r, p, pos)
    {
      pos := PlaceFor(MultimapOf(p), reqs[r].req.key);
      assert Fits(m, p, m.reqs[r].key, pos);
      InsertAtPlace(p, r, pos);
    }

    method InsertAtPlace(p: Place, r: Rid, pos: nat)
      requires Rep() && ByKey(p) && pos <= |ListOf(m.f, p)|
      modifies this`queuedRequests, this`inactiveRequests, this`refreshRequests, this`rateLimitedRequests
      modifies this`detachedRequests, this`numQueued, this`numInactive, this`numRefresh, this`m
      ensures Rep() && m == Put(old(m), r, p, pos)
    {
      PutLinks(p, r, pos);
      Map(p, r, pos);
      Become(Put(m, r, p, pos));
    }

    function MultimapOf(p: Place): seq<Rid>
      requires ByKey(p)
      reads this
    {
      match p
      case Queued => queuedRequests
      case Inactive => inactiveRequests
      case Refresh => refreshRequests
      case RateLimited => rateLimitedRequests
      case Root => detachedRequests
    }

    method Map(p: Place, r: Rid, pos: nat)
      requires Mapped(m.f) && ByKey(p)
      requires pos <= |ListOf(m.f, p)|
      modifies this`queuedRequests, this`inactiveRequests, this`refreshRequests, this`rateLimitedRequests
      modifies this`detachedRequests, this`numQueued, this`numInactive, this`numRefresh
      ensures Mapped(File(m.f, r, p, pos))
    {
      PutLists(m.f, r, p, pos);
      ghost var h := File(m.f, r, p, pos);
      match p {
        case Queued =>
          queuedRequests := InsertAt(queuedRequests, pos, r);
          numQueued := numQueued + 1;
        case Inactive =>
          inactiveRequests := InsertAt(inactiveRequests, pos, r);
          numInactive := numInactive + 1;
        case Refresh =>
          refreshRequests := InsertAt(refreshRequests, pos, r);
          numRefresh := numRefresh + 1;
        case RateLimited => rateLimitedRequests := InsertAt(rateLimitedRequests, pos, r);
        case Root => detachedRequests := InsertAt(detachedRequests, pos, r);
        case _ => assert false;
      }
    }

    lemma PutLinks(p: Place, r: Rid, pos: nat)
      requires Links(m) && ByKey(p)
      ensures Links(Put(m, r, p, pos))
    {
      PutLists(m.f, r, p, pos);
      ListsSame(reqs, nodes, m.f, Put(m, r, p, pos).f, pendingRequests, cancelledRequests, m.cancelled, m.cancelWork);
    }

    static lemma PutLists(f: Files, r: Rid, p: Place, pos: nat)
      ensures forall q: Place {:trigger ListOf(File(f, r, p, pos), q)} ::
        ListOf(File(f, r, p, pos), q) ==
        if p == q then InsertAt(ListOf(f, p), if pos <= |ListOf(f, p)| then pos else |ListOf(f, p)|, r)
        else ListOf(f, q)
    {}

    // ----- the linked lists

    /** requeue_pending. */
    method RequeuePending(r: Rid)
      requires Rep() && InHand(m, r) && r != 0
      modifies this`reqs, this`pendingRequests, this`m
      ensures Rep() && m == Put(old(m), r, Pending, 0)
    {
      var after := reqs[r := reqs[r].(nextPending := pendingRequests)];
      PushedLinks(r);
      PutLists(m.f, r, Pending, 0);
      reqs := after;
      pendingRequests := r;
      Become(Put(m, r, Pending, 0));
    }

    lemma PushedLinks(r: Rid)
      requires Links(m) && r in reqs && InHand(m, r) && r != 0
      ensures Linkage(reqs[r := reqs[r].(nextPending := pendingRequests)], nodes, Put(m, r, Pending, 0).f,
                      r, cancelledRequests, m.cancelled, m.cancelWork)
    {
      PutLists(m.f, r, Pending, 0);
      assert InsertAt(ListOf(m.f, Pending), 0, r) == [r] + ListOf(m.f, Pending);
      PendingPushed(reqs, nodes, m.f, Put(m, r, Pending, 0).f, r,
                    pendingRequests, cancelledRequests, m.cancelled, m.cancelWork);
    }

    /** block_request_on_res. */
    method BlockRequestOnRes(id: Id, r: Rid)
      requires Rep() && InHand(m, r) && Listed(m.f) && r != 0 && r in m.hist && id in nodes
      modifies this`reqs, this`nodes, this`m
      ensures Rep() && m == Block(old(m), r, id)
    {
      BlockedLinks(r, id);
      LinkWaiter(id, r);
    }

    method LinkWaiter(id: Id, r: Rid)
      requires Rep() && r in reqs && r in m.hist && id in nodes
      requires nodes[id].blockedTail != 0 ==> nodes[id].blockedTail in reqs
      requires Linkage(Appended(reqs, nodes[id], r), nodes[id := Tailed(nodes[id], r)], Block(m, r, id).f,
                       pendingRequests, cancelledRequests, m.cancelled, m.cancelWork)
      modifies this`reqs, this`nodes, this`m
      ensures Rep() && m == Block(old(m), r, id)
    {
      ghost var t := Block(m, r, id);
      BlockShape(m, r, id);
      AppendWaiter(id, r);
      assert Mapped(t.f);
      Become(t);
    }

    static lemma BlockShape(s: State, r: Rid, id: Id)
      requires r in s.hist
      ensures var t := Block(s, r, id);
        && t == s.(f := t.f, hist := t.hist)
        && SameMaps(s.f, t.f)
    {
      BlockedLists(s, r, id);
    }

    method AppendWaiter(id: Id, r: Rid)
      requires Cells(m) && r in reqs && id in nodes
      requires nodes[id].blockedTail != 0 ==> nodes[id].blockedTail in reqs
      modifies this`reqs, this`nodes
      ensures reqs == Appended(old(reqs), old(nodes)[id], r)
      ensures nodes == old(nodes)[id := Tailed(old(nodes)[id], r)]
      ensures Cells(m)
    {
      var n := nodes[id];
      reqs := reqs[r := reqs[r].(nextPending := 0)];
      if n.blockedTail != 0 {
        reqs := reqs[n.blockedTail := reqs[n.blockedTail].(nextPending := r)];
        nodes := nodes[id := n.(blockedTail := r)];
      } else {
        nodes := nodes[id := n.(blockedHead := r, blockedTail := r)];
      }
    }

    lemma BlockedLinks(r: Rid, id: Id)
      requires Links(m) && r in reqs && InHand(m, r) && Listed(m.f) && r != 0 && r in m.hist && id in nodes
      ensures nodes[id].blockedTail != 0 ==> nodes[id].blockedTail in reqs
      ensures Linkage(Appended(reqs, nodes[id], r), nodes[id := Tailed(nodes[id], r)], Block(m, r, id).f,
                      pendingRequests, cancelledRequests, m.cancelled, m.cancelWork)
    {
      BlockedLists(m, r, id);
      WaiterBlocked(reqs, nodes, m.f, Block(m, r, id).f, r, id,
                    pendingRequests, cancelledRequests, m.cancelled, m.cancelWork);
    }

    static lemma BlockedLists(s: State, r: Rid, id: Id)
      requires r in s.hist
      ensures forall p: Place {:trigger ListOf(Block(s, r, id).f, p)} ::
        ListOf(Block(s, r, id).f, p) == if p == Blocked(id) then ListOf(s.f, Blocked(id)) + [r] else ListOf(s.f, p)
    {
      var l := ListOf(s.f, Blocked(id));
      PutLists(s.f, r, Blocked(id), |l|);
      assert InsertAt(l, |l|, r) == l + [r];
    }

    /** curl_resource_block_on_id. */
    method BlockOnId(r: Rid, id: Id) returns (blocked: bool)
      requires Rep() && InHand(m, r) && Listed(m.f) && r != 0 && r in m.hist && id in nodes
      modifies this`reqs, this`nodes, this`m
      ensures Rep() && blocked == !Resolved(old(m).g, id)
      ensures m == if blocked then Block(old(m), r, id) else old(m)
      ensures !blocked ==> reqs == old(reqs) && nodes == old(nodes)
    {
      var n := nodes[id].node;
      if n.payload == None && !n.failed {
        BlockRequestOnRes(id, r);
        return true;
      }
      return false;
    }

    /** curl_resource_check_and_block_list: block on the first dependency that is not there yet. */
    method CheckAndBlockList(r: Rid, ds: seq<Id>) returns (blocked: bool)
      requires Rep() && InHand(m, r) && Listed(m.f) && r != 0 && r in m.hist && forall d <- ds :: d in nodes
      modifies this`reqs, this`nodes, this`m
      ensures Rep() && blocked == FirstUnmet(old(m).g, ds).Some?
      ensures m == if blocked then Block(old(m), r, FirstUnmet(old(m).g, ds).value) else old(m)
      ensures !blocked ==> reqs == old(reqs)
    {
      var i := 0;
      while i < |ds|
        invariant 0 <= i <= |ds| && Rep() && m == old(m) && reqs == old(reqs) && nodes == old(nodes)
        invariant FirstUnmet(m.g, ds[i..]) == FirstUnmet(m.g, ds)
      {
        assert ds[i..][1..] == ds[i + 1..] && ds[i] in ds;
        blocked := BlockOnId(r, ds[i]);
        if blocked { return true; }
        i := i + 1;
      }
      return false;
    }

    /** curl_resource_all_ready_list. */
    method AllReadyList(ds: seq<Id>) returns (ready: bool)
      requires SameNodes(nodes, m.g.nodes)
      ensures ready == (FirstUnmet(m.g, ds) == None)
    {
      var i := 0;
      while i < |ds|
        invariant 0 <= i <= |ds| && FirstUnmet(m.g, ds[i..]) == FirstUnmet(m.g, ds)
      {
        assert ds[i..][1..] == ds[i + 1..];
        if ds[i] !in nodes { return false; }
        var n := nodes[ds[i]].node;
        if n.payload == None && !n.failed { return false; }
        i := i + 1;
      }
      return true;
    }

    // ----- the scheduler

    /** request_ready. `poll` and `now` are what the rate manager and the clock answered, if asked. */
    method RequestReady(r: Rid) returns (ready: bool, poll: nat, now: Time)
      requires Cells(m) && Mapped(m.f) && Logs(m) && r in reqs
      modifies this`clock
      ensures ready == Ready(m, r, poll, now) && old(clock) <= now == clock
    {
      poll, now := 0, clock;
      ghost var q := m.reqs[r];
      assert q == reqs[r].req;
      if numQueued >= maxConcurrent { return false, poll, now; }
      if reqs[r].req.rateLimited {
        poll := *; // rate_manager_can_proceed
        if poll > 0 { return false, poll, now; }
      }
      var deps := AllReadyList(reqs[r].req.deps);
      if !deps { return false, poll, now; }
      now := Now();
      return now >= reqs[r].req.key, poll, now;
    }

    /** enqueue_request. */
    method EnqueueRequest(r: Rid) returns (pos: nat)
      requires Rep() && r in reqs && Orderly(m, EnqueuePlace(reqs[r].req))
      modifies this`queuedRequests, this`inactiveRequests, this`refreshRequests, this`rateLimitedRequests
      modifies this`detachedRequests, this`numQueued, this`numInactive, this`numRefresh, this`m
      ensures Rep() && var q := old(m).reqs[r];
        Fits(old(m), EnqueuePlace(q), q.key, pos) && m == Put(old(m), r, EnqueuePlace(q), pos)
    {
      assert reqs[r].req == m.reqs[r];
      pos := InsertInto(if reqs[r].req.refresh then Refresh else Inactive, r);
    }

    /** setup_curl_handle: a handle that is still there is forgotten, then a new one is asked for. */
    method SetUpHandle(r: Rid) returns (ok: bool)
      requires Rep() && r in reqs
      modifies this`reqs, this`m
      ensures Rep() && m == Detach(old(m), r) && reqs.Keys == old(reqs).Keys
    {
      var q := reqs[r].req;
      if q.attached {
        SetRequest(r, q.(attached := false));
        Become(m.(leaked := m.leaked + 1));
      }
      ok := *; // on_prepare and curl_easy_init
    }

    /** The new handle joins the multi handle. */
    method AttachHandle(r: Rid, now: Time)
      requires Rep() && r in reqs
      modifies this`reqs, this`numMulti, this`m
      ensures Rep() && m == Attach(old(m), r, now) && reqs.Keys == old(reqs).Keys
    {
      var q := reqs[r].req;
      SetRequest(r, q.(attached := true, startTime := now));
      numMulti := numMulti + 1;
      Become(m.(numMulti := m.numMulti + 1));
    }

    /** The request, which is in no list, is filed in the rate-limited multimap under a new key. */
    method FileRateLimited(r: Rid, key: Time) returns (pos: nat)
      requires Rep() && InHand(m, r) && Unlisted(m, RateLimited, r) && Orderly(m, RateLimited)
      modifies this`reqs, this`queuedRequests, this`inactiveRequests, this`refreshRequests, this`rateLimitedRequests
      modifies this`detachedRequests, this`numQueued, this`numInactive, this`numRefresh, this`m
      ensures Rep() && Fits(old(m), RateLimited, key, pos)
      ensures m == Put(Rekey(old(m), r, key), r, RateLimited, pos)
    {
      ghost var s := m;
      SetRequest(r, reqs[r].req.(key := key));
      StillOrderly(s, m, r, RateLimited);
      pos := InsertInto(RateLimited, r);
      FitsBack(s, Rekey(s, r, key), r, RateLimited, key, pos);
    }

    static lemma StillOrderly(s: State, t: State, r: Rid, p: Place)
      requires Orderly(s, p)
      requires t.f == s.f && r in t.reqs && t.reqs == s.reqs[r := t.reqs[r]] && r !in ListOf(s.f, p)
      ensures Orderly(t, p)
    {}

    /** A request that is not in the list changes no position in it. */
    static lemma FitsBack(s: State, t: State, r: Rid, p: Place, key: Time, pos: nat)
      requires Fits(t, p, key, pos) && r !in ListOf(s.f, p)
      requires t.f == s.f && r in t.reqs && t.reqs == s.reqs[r := t.reqs[r]]
      ensures Fits(s, p, key, pos)
    {}

    /** curl_event_loop_request_start. */
    method StartRequest(r: Rid) returns (l: Launch)
      requires Rep() && Startable(m, r)
      modifies this
      ensures Rep() && LaunchFits(old(m), old(m).reqs[r], l) && m == Start(old(m), r, l)
      ensures old(clock) <= l.now == clock
    {
      ghost var s := m;
      assert reqs[r].req == m.reqs[r];
      var wait: nat := 0;
      if reqs[r].req.rateLimited {
        wait := *; // rate_manager_start_request
        if wait > 0 {
          var pos := FileRateLimited(r, wait);
          return Launch(wait, false, clock, pos);
        }
      }
      var ok, now, pos := LaunchRequest(r);
      l := Launch(wait, ok, now, pos);
    }

    method LaunchRequest(r: Rid) returns (ok: bool, now: Time, pos: nat)
      requires Rep() && InHand(m, r) && Unlisted(m, Queued, r) && Orderly(m, Queued)
      modifies this
      ensures Rep() && old(clock) <= now == clock
      ensures ok ==> Fits(old(m), Queued, old(m).reqs[r].key, pos)
      ensures m == if ok then Put(Attach(Detach(old(m), r), r, now), r, Queued, pos) else Destroy(Detach(old(m), r), r)
    {
      ghost var s := m;
      DetachShape(s, r);
      ok := SetUpHandle(r);
      if ok {
        StillOrderly(s, m, r, Queued);
        ghost var u := m;
        now, pos := QueueRequest(r);
        FitsBack(s, u, r, Queued, s.reqs[r].key, pos);
      } else {
        DestroyRequest(r);
        now, pos := clock, 0;
      }
    }

    method QueueRequest(r: Rid) returns (now: Time, pos: nat)
      requires Rep() && r in reqs && Unlisted(m, Queued, r) && Orderly(m, Queued)
      modifies this
      ensures Rep() && m == Put(Attach(old(m), r, now), r, Queued, pos)
      ensures Fits(old(m), Queued, old(m).reqs[r].key, pos) && old(clock) <= now == clock
    {
      now := Now();
      pos := QueueAt(r, now);
    }

    method QueueAt(r: Rid, now: Time) returns (pos: nat)
      requires Rep() && r in reqs && Unlisted(m, Queued, r) && Orderly(m, Queued)
      modifies this`reqs, this`numMulti, this`queuedRequests, this`inactiveRequests, this`refreshRequests
      modifies this`rateLimitedRequests, this`detachedRequests, this`numQueued, this`numInactive, this`numRefresh
      modifies this`m
      ensures Rep() && m == Put(Attach(old(m), r, now), r, Queued, pos)
      ensures Fits(old(m), Queued, old(m).reqs[r].key, pos)
    {
      ghost var s := m;
      AttachHandle(r, now);
      StillOrderly(s, m, r, Queued);
      ghost var v := m;
      pos := InsertInto(Queued, r);
      FitsBack(s, v, r, Queued, s.reqs[r].key, pos);
    }

    static lemma DetachShape(s: State, r: Rid)
      requires r in s.reqs
      ensures var t := Detach(s, r);
        && t.f == s.f && t.cancelled == s.cancelled && t.cancelWork == s.cancelWork
        && t.reqs.Keys == s.reqs.Keys && t.reqs == s.reqs[r := t.reqs[r]] && t.reqs[r].key == s.reqs[r].key
    {
      assert s.reqs[r := s.reqs[r]] == s.reqs;
    }

    // ----- process_cancelled_and_pending_requests

    /** Take the head off the list the loop thread has detached. */
    method PopWork(r: Rid) returns (next: Rid)
      requires Rep() && ListOf(m.f, Work) != [] && r == ListOf(m.f, Work)[0] && r in m.f.place && m.f.place[r] == Work
      modifies this`m
      ensures Rep() && m == Take(old(m), r) && next == From(ListOf(m.f, Work), 0)
      ensures ListOf(m.f, Work) == ListOf(old(m).f, Work)[1..] && r in reqs
    {
      PoppedShape(m, r);
      WorkPopped(reqs, nodes, m.f, Take(m, r).f, pendingRequests, cancelledRequests, m.cancelled, m.cancelWork);
      next := reqs[r].nextPending;
      Become(Take(m, r));
    }

    static lemma PoppedShape(s: State, r: Rid)
      requires ListOf(s.f, Work) != [] && r == ListOf(s.f, Work)[0] && r in s.f.place && s.f.place[r] == Work
      ensures var t := Take(s, r);
        && Relisted(s.f, t.f, Work, ListOf(s.f, Work)[1..])
        && SameMaps(s.f, t.f)
    {
      TakenLists(s.f, r);
    }

    /** next_pending = NULL, of a request that is in no list. */
    method ClearNext(r: Rid)
      requires Rep() && InHand(m, r)
      modifies this`reqs
      ensures Rep() && reqs.Keys == old(reqs).Keys
    {
      var after := reqs[r := reqs[r].(nextPending := 0)];
      NextCleared(reqs, r, nodes, m.f, pendingRequests, cancelledRequests, m.cancelled, m.cancelWork);
      reqs := after;
    }

    /** Pin the dependencies, the first time the loop thread touches the request. */
    method RetainOnce(r: Rid)
      requires Rep() && r in reqs
      modifies this`reqs, this`nodes, this`m
      ensures Rep() && m == Retain(old(m), r) && reqs.Keys == old(reqs).Keys
    {
      var q := reqs[r].req;
      if !q.retained && q.deps != [] {
        RetainRequestDeps(q.deps);
        SetRequest(r, q.(retained := true));
      }
    }

    /** Block the request, start it or put it aside. */
    method AdmitRequest(r: Rid) returns (poll: nat, now: Time, l: Launch)
      requires Rep() && Loose(m, r) && forall d <- m.reqs[r].deps :: d in nodes
      modifies this
      ensures Rep() && AdmitFits(old(m), r, poll, now, l) && m == Admit(old(m), r, poll, now, l)
    {
      assert reqs[r].req == m.reqs[r];
      poll, now, l := 0, clock, Launch(0, false, clock, 0);
      var blocked := CheckAndBlockList(r, reqs[r].req.deps);
      if !blocked {
        poll, now, l := ScheduleRequest(r);
      }
    }

    method ScheduleRequest(r: Rid) returns (poll: nat, now: Time, l: Launch)
      requires Rep() && Loose(m, r) && FirstUnmet(m.g, m.reqs[r].deps) == None
      modifies this
      ensures Rep() && AdmitFits(old(m), r, poll, now, l) && m == Admit(old(m), r, poll, now, l)
    {
      var ready;
      ready, poll, now := RequestReady(r);
      if ready {
        l := StartRequest(r);
      } else {
        assert reqs[r].req == m.reqs[r];
        var pos := EnqueueRequest(r);
        l := Launch(0, false, clock, pos);
      }
    }

    /** Take the head off the pending snapshot and unflag it. */
    method TakePending(r: Rid) returns (next: Rid)
      requires Rep() && Head(m, Work, r) && m.f.place[r] == Work && InHand(Taken(m, r), r)
      modifies this`reqs, this`m
      ensures Rep() && m == Taken(old(m), r) && next == From(ListOf(old(m).f, Work)[1..], 0)
    {
      next := PopWork(r);
      Unflag(r);
    }

    /** No longer pending. */
    method Unflag(r: Rid)
      requires Rep() && r in m.reqs && InHand(SetReq(m, r, m.reqs[r].(isPending := false)), r)
      modifies this`reqs, this`m
      ensures Rep() && m == SetReq(old(m), r, old(m).reqs[r].(isPending := false))
    {
      assert reqs[r].req == m.reqs[r];
      SetRequest(r, reqs[r].req.(isPending := false));
      ClearNext(r);
    }

    /** Destroy a request that was cancelled while pending, or pin its dependencies and admit it. */
    method DecidePending(r: Rid) returns (poll: nat, now: Time, l: Launch)
      requires Rep() && Decidable(m, r)
      modifies this
      ensures Rep()
      ensures old(m).reqs[r].isCancelled ==> m == Destroy(old(m), r)
      ensures !old(m).reqs[r].isCancelled ==>
        AdmitFits(Retain(old(m), r), r, poll, now, l) && m == Admit(Retain(old(m), r), r, poll, now, l)
    {
      assert reqs[r].req == m.reqs[r];
      poll, now, l := 0, clock, Launch(0, false, clock, 0);
      if reqs[r].req.isCancelled {
        DestroyRequest(r);
      } else {
        RetainOnce(r);
        poll, now, l := AdmitRequest(r);
      }
    }

    /** One turn of the loop over the pending snapshot. */
    method ProcessPendingRequest(r: Rid) returns (next: Rid, ghost e: Event)
      requires Rep() && m.mode.Draining? && m.cancelWork == []
      requires Head(m, Work, r) && m.f.place[r] == Work && Decidable(Taken(m, r), r)
      modifies this
      ensures Rep() && Enabled(old(m), e) && m == Apply(old(m), e)
      ensures next == From(ListOf(m.f, Work), 0) && ListOf(m.f, Work) == ListOf(old(m).f, Work)[1..]
      ensures m.mode == old(m).mode && m.cancelWork == [] && m.cancelled == old(m).cancelled
      ensures ListOf(m.f, Pending) == ListOf(old(m).f, Pending) && old(m).destroyed <= m.destroyed
    {
      ghost var s := m;
      next := TakePending(r);
      var poll, now, l := DecidePending(r);
      e := TakeOne(r, poll, now, l);
      TakeOneShape(s, r, poll, now, l);
    }

    static lemma TakeOneShape(s: State, r: Rid, poll: nat, now: Time, l: Launch)
      requires s.mode.Draining? && s.cancelWork == [] && Head(s, Work, r) && s.f.place[r] == Work
      ensures var t := DoTakeOne(s, r, poll, now, l);
        && ListOf(t.f, Work) == ListOf(s.f, Work)[1..] && t.mode == s.mode && t.cancelWork == []
        && t.cancelled == s.cancelled && ListOf(t.f, Pending) == ListOf(s.f, Pending) && s.destroyed <= t.destroyed
    {
      PoppedShape(s, r);
      var u := Taken(s, r);
      if !s.reqs[r].isCancelled { AdmitShape(Retain(u, r), r, poll, now, l); }
    }

    static lemma AdmitShape(s: State, r: Rid, poll: nat, now: Time, l: Launch)
      requires r in s.reqs && r in s.hist
      ensures var t := Admit(s, r, poll, now, l);
        && ListOf(t.f, Work) == ListOf(s.f, Work) && t.mode == s.mode && t.cancelWork == s.cancelWork
        && t.cancelled == s.cancelled && ListOf(t.f, Pending) == ListOf(s.f, Pending) && s.destroyed <= t.destroyed
    {}

    /** One turn of the loop over the cancelled snapshot. */
    method ProcessCancelledRequest(r: Rid) returns (next: Rid)
      requires Rep() && m.cancelWork != [] && m.cancelWork[0] == r && CancelledHere(m, r)
      modifies this
      ensures Rep() && m == DoDropCancelled(old(m), r)
      ensures next == From(old(m).cancelWork[1..], 0)
    {
      CancelHead(reqs, nodes, m.f, pendingRequests, cancelledRequests, m.cancelled, m.cancelWork);
      next := reqs[r].nextCancelled;
      var q := reqs[r].req;
      EraseFrom(Chosen(q), r);
      DestroyCancelled(r);
    }

    /** curl_event_request_destroy, of the head of the cancelled snapshot. */
    method DestroyCancelled(r: Rid)
      requires Rep() && m.cancelWork != [] && m.cancelWork[0] == r && InHand(m.(cancelWork := m.cancelWork[1..]), r)
      modifies this`reqs, this`nodes, this`numMulti, this`cleanups, this`freed, this`m
      ensures Rep() && m == Destroy(old(m).(cancelWork := old(m).cancelWork[1..]), r)
    {
      ghost var s := m;
      StripRequest(r);
      StrippedShape(s, m, r);
      FreeCancelled(r);
    }

    static lemma StrippedShape(s: State, u: State, r: Rid)
      requires r in s.reqs && s.cancelWork != []
      requires u == Cleanup(s, r).(g := ReleaseDeps(s.g, s.f, PinnedDeps(s.reqs[r])))
      ensures u.f == s.f && u.cancelled == s.cancelled && u.cancelWork == s.cancelWork && r in u.reqs
      ensures Forget(u, r).(cancelWork := s.cancelWork[1..]) == Destroy(s.(cancelWork := s.cancelWork[1..]), r)
    {}

    method FreeCancelled(r: Rid)
      requires Rep() && m.cancelWork != [] && m.cancelWork[0] == r && InHand(m.(cancelWork := m.cancelWork[1..]), r)
      modifies this`reqs, this`freed, this`m
      ensures Rep() && m == Forget(old(m), r).(cancelWork := old(m).cancelWork[1..])
    {
      CancelFreedLinks(r);
      ghost var t := Forget(m, r).(cancelWork := m.cancelWork[1..]);
      reqs := reqs - {r};
      freed := freed + [r];
      Become(t);
    }

    lemma CancelFreedLinks(r: Rid)
      requires Links(m) && m.cancelWork != [] && m.cancelWork[0] == r && InHand(m.(cancelWork := m.cancelWork[1..]), r)
      ensures Linkage(reqs - {r}, nodes, Forget(m, r).f, pendingRequests, cancelledRequests, m.cancelled,
                      m.cancelWork[1..])
    {
      CancelFreed(reqs, nodes, m.f, pendingRequests, cancelledRequests, m.cancelled, m.cancelWork);
      ListsSame(reqs - {r}, nodes, m.f, Forget(m, r).f, pendingRequests, cancelledRequests, m.cancelled,
                m.cancelWork[1..]);
    }

    /** The head of the detached pending list, or NULL. */
    method DetachLists() returns (cancelled: Rid, pending: Rid)
      requires Rep() && ListOf(m.f, Work) == [] && m.cancelWork == []
      modifies this`pendingRequests, this`cancelledRequests, this`m
      ensures Rep() && m == DoTakeLists(old(m))
      ensures cancelled == From(m.cancelWork, 0) && pending == From(ListOf(m.f, Work), 0)
    {
      DetachedLinks();
      ghost var t := DoTakeLists(m);
      cancelled := cancelledRequests;
      cancelledRequests := 0;
      pending := pendingRequests;
      pendingRequests := 0;
      assert Mapped(t.f);
      Become(t);
    }

    lemma DetachedLinks()
      requires Links(m) && ListOf(m.f, Work) == [] && m.cancelWork == []
      ensures var t := DoTakeLists(m);
        && Linkage(reqs, nodes, t.f, 0, 0, [], t.cancelWork)
        && pendingRequests == From(ListOf(t.f, Work), 0) && cancelledRequests == From(t.cancelWork, 0)
        && SameMaps(m.f, t.f)
    {
      var t := DoTakeLists(m);
      MoveShape(m.f, Pending, Work);
      PendingDetached(reqs, nodes, m.f, t.f, pendingRequests, cancelledRequests, m.cancelled, []);
      CancelsDetached(reqs, nodes, t.f, 0, cancelledRequests, m.cancelled);
    }

    static lemma MoveShape(f: Files, p: Place, q: Place)
      requires p != q
      ensures forall o: Place {:trigger ListOf(Move(f, p, q), o)} ::
        ListOf(Move(f, p, q), o) == if o == p then [] else if o == q then ListOf(f, p) else ListOf(f, o)
    {}

    /** process_cancelled_and_pending_requests. */
    method ProcessCancelledAndPendingRequests() returns (ghost events: seq<Event>)
      requires Valid()
      modifies this
      ensures Valid() && Run(old(m), events, m)
      ensures m.cancelled == [] && ListOf(m.f, Pending) == []
      ensures forall r <- old(m).cancelled :: r in m.destroyed && r !in m.reqs
    {
      ghost var s := m;
      BetweenLists(m);
      LastEvent(m, TakeLists);
      var cancelled, pending := DetachLists();
      events := DrainBoth(cancelled, pending, s);
      ghost var t := m.(mode := Running);
      RunExtend(s, events, m, DrainEnd);
      Become(t);
      events := events + [DrainEnd];
      ReachableRun(s, events, m);
      DestroyedGone(m);
    }

    method DrainBoth(cancelled: Rid, pending: Rid, ghost s: State) returns (ghost events: seq<Event>)
      requires Rep() && Reachable(s) && Run(s, [TakeLists], m) && m.mode.Draining?
      requires cancelled == From(m.cancelWork, 0) && pending == From(ListOf(m.f, Work), 0)
      modifies this
      ensures Rep() && Run(s, events, m) && m.mode.Draining? && m.cancelWork == [] && ListOf(m.f, Work) == []
      ensures m.cancelled == old(m).cancelled && ListOf(m.f, Pending) == ListOf(old(m).f, Pending)
      ensures forall r <- old(m).cancelWork :: r in m.destroyed
    {
      events := DrainCancelled(cancelled, s, [TakeLists]);
      ghost var d, w := m.destroyed, old(m).cancelWork;
      events := DrainPending(pending, s, events);
      AllWithin(old(m).destroyed, w, d, m.destroyed);
    }

    static lemma AllWithin(before: seq<Rid>, w: seq<Rid>, d: seq<Rid>, after: seq<Rid>)
      requires d == before + w && d <= after
      ensures forall r <- w :: r in after
    {
      forall r <- w ensures r in after { assert r in d; }
    }

    method DrainCancelled(head: Rid, ghost s: State, ghost before: seq<Event>) returns (ghost events: seq<Event>)
      requires Rep() && Reachable(s) && Run(s, before, m) && m.mode.Draining? && head == From(m.cancelWork, 0)
      modifies this
      ensures Rep() && Run(s, events, m) && m.mode.Draining? && m.cancelWork == []
      ensures m.cancelled == old(m).cancelled && m.destroyed == old(m).destroyed + old(m).cancelWork
      ensures ListOf(m.f, Work) == ListOf(old(m).f, Work) && ListOf(m.f, Pending) == ListOf(old(m).f, Pending)
    {
      var cancelled := head;
      events := before;
      while cancelled != 0
        invariant Rep() && Run(s, events, m) && m.mode.Draining? && cancelled == From(m.cancelWork, 0)
        invariant m.cancelled == old(m).cancelled
        invariant m.destroyed + m.cancelWork == old(m).destroyed + old(m).cancelWork
        invariant ListOf(m.f, Work) == ListOf(old(m).f, Work) && ListOf(m.f, Pending) == ListOf(old(m).f, Pending)
        decreases |m.cancelWork|
      {
        cancelled, events := DropOne(cancelled, s, events);
      }
      NoneLeft();
    }

    method DropOne(r: Rid, ghost s: State, ghost before: seq<Event>) returns (next: Rid, ghost events: seq<Event>)
      requires Rep() && Reachable(s) && Run(s, before, m) && m.mode.Draining?
      requires m.cancelWork != [] && r == m.cancelWork[0]
      modifies this
      ensures Rep() && Run(s, events, m) && m.mode.Draining? && next == From(m.cancelWork, 0)
      ensures m.cancelled == old(m).cancelled && m.cancelWork == old(m).cancelWork[1..]
      ensures m.destroyed + m.cancelWork == old(m).destroyed + old(m).cancelWork
      ensures ListOf(m.f, Work) == ListOf(old(m).f, Work) && ListOf(m.f, Pending) == ListOf(old(m).f, Pending)
    {
      CancelledNext(s, before, m);
      CancelledShape(m, r);
      RunExtend(s, before, m, DropCancelled(r));
      next := ProcessCancelledRequest(r);
      events := before + [DropCancelled(r)];
    }

    lemma NoneLeft()
      requires Links(m) && From(m.cancelWork, 0) == 0
      ensures m.cancelWork == []
    {
      assert m.cancelWork != [] ==> CancelLinked(reqs, m.cancelWork, 0);
    }

    lemma NoWorkLeft()
      requires Links(m) && From(ListOf(m.f, Work), 0) == 0
      ensures ListOf(m.f, Work) == []
    {
      var l := ListOf(m.f, Work);
      assert l != [] ==> Linked(reqs, l, 0);
    }

    method DrainPending(head: Rid, ghost s: State, ghost before: seq<Event>) returns (ghost events: seq<Event>)
      requires Rep() && Reachable(s) && Run(s, before, m) && m.mode.Draining? && m.cancelWork == []
      requires head == From(ListOf(m.f, Work), 0)
      modifies this
      ensures Rep() && Run(s, events, m) && m.mode.Draining? && m.cancelWork == []
      ensures m.cancelled == old(m).cancelled && ListOf(m.f, Work) == []
      ensures ListOf(m.f, Pending) == ListOf(old(m).f, Pending) && old(m).destroyed <= m.destroyed
    {
      var pending := head;
      events := before;
      while pending != 0
        invariant Rep() && Run(s, events, m) && m.mode.Draining? && m.cancelWork == []
        invariant pending == From(ListOf(m.f, Work), 0)
        invariant m.cancelled == old(m).cancelled && ListOf(m.f, Pending) == ListOf(old(m).f, Pending)
        invariant old(m).destroyed <= m.destroyed
        decreases |ListOf(m.f, Work)|
      {
        PendingNext(s, events, m);
        ghost var u := m;
        ghost var e;
        pending, e := ProcessPendingRequest(pending);
        RunExtend(s, events, u, e);
        events := events + [e];
      }
      NoWorkLeft();
    }

    // ----- what callers do

    /** curl_event_request_submit: file a new request in front of the pending list, due at once. */
    method SubmitRequest(r: Rid, q: Request, priority: int) returns (ghost e: Event)
      requires Valid() && r != 0 && r !in m.submitted
      modifies this
      ensures Valid() && Enabled(old(m), e) && m == Apply(old(m), e) && old(clock) <= clock
      ensures var early := priority * 1_000_000_000;
        e == Submit(r, q.(key := if priority > 0 && early < clock then clock - early else clock))
    {
      var now := Now();
      var key := now;
      if priority > 0 && priority * 1_000_000_000 < key {
        key := key - priority * 1_000_000_000;
      }
      var p := q.(key := key);
      e := Submit(r, p);
      AddPending(r, p);
    }

    method AddPending(r: Rid, q: Request)
      requires Valid() && r != 0 && r !in m.submitted
      modifies this`reqs, this`pendingRequests, this`m
      ensures Valid() && Enabled(old(m), Submit(r, q)) && m == Apply(old(m), Submit(r, q))
    {
      ghost var s := m;
      SubmitFresh(m, r);
      FileSubmitted(r, q);
      ReachableStep(s, Submit(r, q));
    }

    method FileSubmitted(r: Rid, q: Request)
      requires Rep() && r != 0 && r !in reqs && Outside(m.f, r, Hand) && r !in m.cancelled && r !in m.cancelWork
      modifies this`reqs, this`pendingRequests, this`m
      ensures Rep() && m == DoSubmit(old(m), r, q)
    {
      ghost var t := DoSubmit(m, r, q);
      SubmittedLinks(r, q);
      SubmittedShape(m, r, q);
      LinkSubmitted(r, q, t);
    }

    method LinkSubmitted(r: Rid, q: Request, ghost t: State)
      requires Cells(m) && Mapped(m.f) && Logs(m) && SameMaps(m.f, t.f)
      requires t == m.(f := t.f, reqs := m.reqs[r := FreshRequest(q)], hist := t.hist, submitted := t.submitted)
      requires Linkage(reqs[r := ReqCell(FreshRequest(q), pendingRequests, 0)], nodes, t.f, r, cancelledRequests,
                       m.cancelled, m.cancelWork)
      modifies this`reqs, this`pendingRequests, this`m
      ensures Rep() && m == t
    {
      reqs := reqs[r := ReqCell(FreshRequest(q), pendingRequests, 0)];
      pendingRequests := r;
      Become(t);
    }

    lemma SubmittedLinks(r: Rid, q: Request)
      requires Links(m) && r != 0 && r !in reqs && Outside(m.f, r, Hand) && r !in m.cancelled && r !in m.cancelWork
      ensures Linkage(reqs[r := ReqCell(FreshRequest(q), pendingRequests, 0)], nodes, DoSubmit(m, r, q).f,
                      r, cancelledRequests, m.cancelled, m.cancelWork)
    {
      var after := reqs[r := ReqCell(FreshRequest(q), pendingRequests, 0)];
      SubmittedShape(m, r, q);
      Unlinked(reqs, after, r, nodes, m.f, pendingRequests, cancelledRequests, m.cancelled, m.cancelWork);
      PendingPushed(after, nodes, m.f, DoSubmit(m, r, q).f, r,
                    pendingRequests, cancelledRequests, m.cancelled, m.cancelWork);
      assert after[r := after[r].(nextPending := pendingRequests)] == after;
    }

    static lemma SubmittedShape(s: State, r: Rid, q: Request)
      ensures var t := DoSubmit(s, r, q);
        && t == s.(f := t.f, reqs := s.reqs[r := FreshRequest(q)], hist := t.hist, submitted := t.submitted)
        && SameMaps(s.f, t.f) && Relisted(s.f, t.f, Pending, [r] + ListOf(s.f, Pending))
    {
      var u := Arrive(s, r, FreshRequest(q));
      PutLists(u.f, r, Pending, 0);
      assert InsertAt(ListOf(s.f, Pending), 0, r) == [r] + ListOf(s.f, Pending);
      assert forall p: Place {:trigger ListOf(u.f, p)} :: ListOf(u.f, p) == ListOf(s.f, p);
    }

    /** curl_event_loop_cancel. */
    method CancelRequest(r: Rid) returns (ok: bool)
      requires Valid() && r in reqs && Enabled(m, Cancel(r))
      modifies this`reqs, this`cancelledRequests, this`m
      ensures Valid() && ok && m == Apply(old(m), Cancel(r))
    {
      CancelFresh(m, r);
      if reqs[r].nextCancelled != 0 {
        return false;
      }
      ghost var s := m;
      FlagCancelled(r);
      ReachableStep(s, Cancel(r));
      return true;
    }

    method FlagCancelled(r: Rid)
      requires Rep() && r in reqs && r in m.reqs && r != 0 && (!m.reqs[r].isPending ==> InHand(m, r))
      modifies this`reqs, this`cancelledRequests, this`m
      ensures Rep() && m == DoCancel(old(m), r)
    {
      assert reqs[r].req == m.reqs[r];
      SetRequest(r, reqs[r].req.(isCancelled := true));
      if !reqs[r].req.isPending {
        PushCancelled(r);
      }
    }

    method PushCancelled(r: Rid)
      requires Rep() && r in reqs && r != 0 && InHand(m, r) && reqs[r].req.isCancelled
      modifies this`reqs, this`cancelledRequests, this`m
      ensures Rep() && m == old(m).(cancelled := [r] + old(m).cancelled)
    {
      var after := reqs[r := reqs[r].(nextCancelled := cancelledRequests)];
      CancelPushed(reqs, nodes, m.f, r, pendingRequests, cancelledRequests, m.cancelled, m.cancelWork);
      reqs := after;
      cancelledRequests := r;
      Become(m.(cancelled := [r] + m.cancelled));
    }

    /** curl_event_res_addref; curl_event_res_declare is the same on an id nobody has used. */
    method AddReferenceTo(id: Id)
      requires Valid()
      modifies this`nodes, this`m
      ensures Valid() && m == Apply(old(m), AddReference(id))
    {
      ghost var s := m;
      GetOrCreateNode(id);
      var n := nodes[id].node;
      SetNode(id, n.(refcnt := if n.refcnt == 0 then 1 else n.refcnt + 1), Addref(s.g, id).client);
      assert m == s.(g := Addref(s.g, id));
      ReachableStep(s, AddReference(id));
    }

    /** curl_event_res_autorelease_owner, which only the owner may switch on. */
    method SetAutoReleaseOf(id: Id, enable: bool)
      requires Valid() && (enable ==> Client(m.g, id) >= 1)
      modifies this`nodes, this`m
      ensures Valid() && m == Apply(old(m), SetAutoRelease(id, enable))
    {
      ghost var s := m;
      GetOrCreateNode(id);
      SetNode(id, nodes[id].node.(autoRelease := enable), s.g.client);
      assert m == s.(g := SetAuto(s.g, id, enable));
      ReachableStep(s, SetAutoRelease(id, enable));
    }

    /** curl_event_res_release, of a reference the caller holds. */
    method DropReferenceTo(id: Id)
      requires Valid() && Enabled(m, DropReference(id))
      modifies this`nodes, this`cleanups, this`m
      ensures Valid() && m == Apply(old(m), DropReference(id))
    {
      ghost var s := m;
      HeldLast(m, id);
      ReleaseNode(id);
      ReachableStep(s, DropReference(id));
    }

    // ----- publish

    /** The head of curl_event_res_publish: find or create the node, then store the payload. */
    method StorePayload(id: Id, payload: Option<Payload>, cleanup: bool)
      requires Rep()
      modifies this`nodes, this`cleanups, this`m
      ensures Rep() && m == old(m).(g := Store(old(m).g, id, payload, cleanup)) && id in nodes
      ensures nodes[id].node.payload == payload && nodes[id].node.cleanup == cleanup
      ensures nodes[id].node.failed <==> payload == None
    {
      ghost var g := m.g;
      GetOrCreateNode(id);
      ghost var u := m;
      ReplacePayload(id, payload, cleanup);
      StoredShape(g, id, payload, cleanup);
      Become(u.(g := Store(g, id, payload, cleanup)));
    }

    method ReplacePayload(id: Id, payload: Option<Payload>, cleanup: bool)
      requires Rep() && id in nodes
      modifies this`nodes, this`cleanups, this`m
      ensures Rep() && id in nodes && id in old(m).g.nodes
      ensures var n := old(m).g.nodes[id];
        m == old(m).(g := Graph(
          old(m).g.nodes[id := n.(refcnt := if n.refcnt == 0 then 1 else n.refcnt, payload := payload,
                                  cleanup := cleanup, failed := payload == None)],
          old(m).g.client, old(m).g.accepted,
          if n.cleanup && n.payload.Some? then old(m).g.cleaned + multiset{n.payload.value} else old(m).g.cleaned))
    {
      var n := nodes[id].node;
      assert n == m.g.nodes[id];
      if n.cleanup && n.payload.Some? {
        RunCleanup(n.payload.value);
      }
      SetNode(id, n.(refcnt := if n.refcnt == 0 then 1 else n.refcnt, payload := payload, cleanup := cleanup,
                     failed := payload == None), m.g.client);
    }

    method RunCleanup(payload: Payload)
      requires Rep()
      modifies this`cleanups, this`m
      ensures Rep() && m == old(m).(g := old(m).g.(cleaned := old(m).g.cleaned + multiset{payload}))
    {
      cleanups := cleanups + multiset{payload};
      Become(m.(g := m.g.(cleaned := m.g.cleaned + multiset{payload})));
    }

    static lemma StoredShape(g: Graph, id: Id, payload: Option<Payload>, cleanup: bool)
      ensures var n, h := GetOrCreate(g, id).nodes[id], Store(g, id, payload, cleanup);
        && h.nodes == GetOrCreate(g, id).nodes[id := h.nodes[id]]
        && h.cleaned == (if n.cleanup && n.payload.Some? then g.cleaned + multiset{n.payload.value} else g.cleaned)
    {
      assert g.cleaned + multiset{} == g.cleaned;
    }

    /** Take over the waiters of a node. */
    method DetachWaiters(id: Id, ghost mode: Mode) returns (head: Rid)
      requires Rep() && id in nodes && ListOf(m.f, Work) == []
      modifies this`nodes, this`m
      ensures Rep() && m == old(m).(f := Move(old(m).f, Blocked(id), Work), mode := mode)
      ensures head == From(ListOf(m.f, Work), 0) && ListOf(m.f, Work) == ListOf(old(m).f, Blocked(id))
    {
      DetachedWaiters(id);
      ghost var t := m.(f := Move(m.f, Blocked(id), Work), mode := mode);
      head := nodes[id].blockedHead;
      nodes := nodes[id := nodes[id].(blockedHead := 0, blockedTail := 0)];
      assert Mapped(t.f);
      Become(t);
    }

    lemma DetachedWaiters(id: Id)
      requires Links(m) && id in nodes && ListOf(m.f, Work) == []
      ensures var h := Move(m.f, Blocked(id), Work);
        && Linkage(reqs, nodes[id := nodes[id].(blockedHead := 0, blockedTail := 0)], h,
                   pendingRequests, cancelledRequests, m.cancelled, m.cancelWork)
        && nodes[id].blockedHead == From(ListOf(h, Work), 0) && SameMaps(m.f, h)
        && ListOf(h, Work) == ListOf(m.f, Blocked(id))
    {
      MoveShape(m.f, Blocked(id), Work);
      WaitersDetached(reqs, nodes, m.f, Move(m.f, Blocked(id), Work), id,
                      pendingRequests, cancelledRequests, m.cancelled, m.cancelWork);
    }

    /** Tell a waiter, if it cares, that it was aborted. */
    method AbortRequest(r: Rid)
      requires Rep() && r in reqs
      modifies this`failureCalls, this`m
      ensures Rep() && m == Abort(old(m), r)
    {
      if reqs[r].req.onFailure {
        failureCalls := failureCalls + [r];
      }
      Become(Abort(m, r));
    }

    /** One turn of the loop in publish. */
    method PublishToWaiter(id: Id, r: Rid) returns (next: Rid)
      requires Rep() && WaiterHere(m, r) && id in nodes
      modifies this
      ensures Rep() && m == DoPublishNext(old(m), r, id) && next == From(ListOf(m.f, Work), 0)
    {
      ghost var s := m;
      PublishNextLists(m, r, id);
      next := PopWork(r);
      ClearNext(r);
      if nodes[id].node.failed {
        AbortRequest(r);
        DestroyRequest(r);
      } else {
        RequeuePending(r);
      }
    }

    static lemma PublishNextLists(s: State, r: Rid, id: Id)
      requires WaiterHere(s, r) && id in s.g.nodes
      ensures ListOf(DoPublishNext(s, r, id).f, Work) == ListOf(s.f, Work)[1..]
    {
      PoppedShape(s, r);
    }

    /** curl_event_res_publish. */
    method PublishResource(id: Id, payload: Option<Payload>, cleanup: bool) returns (ghost events: seq<Event>)
      requires Valid()
      modifies this
      ensures Valid() && Run(old(m), events, m)
      ensures events == [Publish(id, payload, cleanup)] + PublishEvents(ListOf(old(m).f, Blocked(id)))
      ensures var w := ListOf(old(m).f, Blocked(id)); forall r <- w :: r in old(m).reqs
      ensures var w := ListOf(old(m).f, Blocked(id));
        if payload == None
        then failureCalls == old(failureCalls) + Notified(old(m).reqs, w) && freed == old(freed) + w
        else ListOf(m.f, Pending) == Reverse(w) + ListOf(old(m).f, Pending) && freed == old(freed)
      ensures payload.Some? ==>
        && id in nodes && nodes[id].node.payload == payload && nodes[id].node.cleanup == cleanup
        && !nodes[id].node.failed && cleanups == old(cleanups) + Replaced(old(m).g, id)
      ensures payload == None && id in nodes ==> nodes[id].node.failed && nodes[id].node.payload == None
    {
      ghost var s, e := m, Publish(id, payload, cleanup);
      BetweenLists(m);
      StorePayload(id, payload, cleanup);
      var head := DetachWaiters(id, Publishing(id));
      LastEvent(s, e);
      events := PublishToWaiters(id, head, s, [e]);
      ReachableRun(s, events, m);
      PublishResult(s, id, payload, cleanup, m);
    }

    method PublishToWaiters(id: Id, first: Rid, ghost s: State, ghost before: seq<Event>)
      returns (ghost events: seq<Event>)
      requires Rep() && Reachable(s) && Run(s, before, m) && m.mode == Publishing(id)
      requires first == From(ListOf(m.f, Work), 0)
      modifies this
      ensures Rep() && Run(s, events, m) && m.mode == Running
      ensures events == before + PublishEvents(ListOf(old(m).f, Work))
    {
      var head := first;
      events := before;
      while head != 0
        invariant Rep() && Run(s, events, m) && m.mode == Publishing(id) && head == From(ListOf(m.f, Work), 0)
        invariant events + PublishEvents(ListOf(m.f, Work)) == before + PublishEvents(ListOf(old(m).f, Work))
        decreases |ListOf(m.f, Work)|
      {
        head, events := PublishOne(id, head, s, events);
      }
      NoWorkLeft();
      RunExtend(s, events, m, PublishEnd);
      Become(m.(mode := Running));
      events := events + [PublishEnd];
    }

    method PublishOne(id: Id, r: Rid, ghost s: State, ghost before: seq<Event>)
      returns (next: Rid, ghost events: seq<Event>)
      requires Rep() && Reachable(s) && Run(s, before, m) && m.mode == Publishing(id)
      requires ListOf(m.f, Work) != [] && r == ListOf(m.f, Work)[0]
      modifies this
      ensures Rep() && Run(s, events, m) && m.mode == Publishing(id) && next == From(ListOf(m.f, Work), 0)
      ensures ListOf(m.f, Work) == ListOf(old(m).f, Work)[1..]
      ensures events + PublishEvents(ListOf(m.f, Work)) == before + PublishEvents(ListOf(old(m).f, Work))
    {
      WaiterNext(s, before, m);
      RunExtend(s, before, m, PublishNext(r));
      PublishNextLists(m, r, id);
      PublishSplit(ListOf(m.f, Work), before);
      next := PublishToWaiter(id, r);
      events := before + [PublishNext(r)];
    }

    // ----- move_inactive_requests_to_queue

    /** request_is_rate_limited, when the poll says wait: refile the request under the time it will be due. */
    method RefileHead(p: Place, r: Rid, first: nat) returns (now: Time, key: Time, pos: nat)
      requires Rep() && ScanHere(m, p, r)
      modifies this
      ensures old(clock) <= now == clock && key == now + first
      ensures Rep() && Fits(old(m), RateLimited, key, pos) && m == Refiled(old(m), r, key, pos)
    {
      ghost var s := m;
      EraseFrom(p, r);
      now, key, pos := FileLater(r, first);
      FitsUntaken(s, r, RateLimited, key, pos);
    }

    method FileLater(r: Rid, wait: nat) returns (now: Time, key: Time, pos: nat)
      requires Rep() && Startable(m, r)
      modifies this
      ensures old(clock) <= now == clock && key == now + wait
      ensures Rep() && Fits(old(m), RateLimited, key, pos) && m == Put(Rekey(old(m), r, key), r, RateLimited, pos)
    {
      now := Now();
      key := now + wait;
      pos := FileRateLimited(r, key);
    }

    static lemma FitsUntaken(s: State, r: Rid, p: Place, key: Time, pos: nat)
      requires r in s.f.place && s.f.place[r] != p && Fits(Take(s, r), p, key, pos)
      ensures Fits(s, p, key, pos)
    {
      TakenLists(s.f, r);
    }

    method StartHead(p: Place, r: Rid) returns (l: Launch)
      requires Rep() && ScanHere(m, p, r)
      modifies this
      ensures Rep() && old(clock) <= l.now == clock && LaunchFits(old(m), old(m).reqs[r], l)
      ensures m == Start(Take(old(m), r), r, l)
    {
      ghost var s := m;
      EraseFrom(p, r);
      l := StartRequest(r);
      LaunchUntaken(s, r, l);
    }

    static lemma LaunchUntaken(s: State, r: Rid, l: Launch)
      requires r in s.reqs && r in s.f.place && s.f.place[r] !in {RateLimited, Queued}
      requires LaunchFits(Take(s, r), s.reqs[r], l)
      ensures LaunchFits(s, s.reqs[r], l)
    {
      if Refused(s.reqs[r], l) {
        FitsUntaken(s, r, RateLimited, l.wait, l.pos);
      } else if l.prepared {
        FitsUntaken(s, r, Queued, s.reqs[r].key, l.pos);
      }
    }

    /** One turn of a scan: refile the head, start it, or stop. */
    method ScanOne(p: Place, r: Rid, snapshot: Time) returns (go: bool, ghost e: Event)
      requires Rep() && ScanHere(m, p, r)
      modifies this
      ensures Rep() && ScanTurn(old(m), p, r, snapshot, e, m) && old(clock) <= e.now <= clock
      ensures !go ==> Stopped(old(m), r, e) && m == old(m)
      ensures go ==> |ListOf(m.f, p)| < |ListOf(old(m).f, p)|
    {
      assert reqs[r].req == m.reqs[r];
      var first: nat := 0;
      if reqs[r].req.rateLimited {
        first := *; // rate_manager_can_proceed
      }
      if first > 0 {
        e := RefileOne(p, r, first, snapshot);
        go := true;
      } else {
        go, e := TryStart(p, r, snapshot);
      }
    }

    method RefileOne(p: Place, r: Rid, first: nat, snapshot: Time) returns (ghost e: Event)
      requires Rep() && ScanHere(m, p, r) && m.reqs[r].rateLimited && first > 0
      modifies this
      ensures Rep() && ScanTurn(old(m), p, r, snapshot, e, m) && old(clock) <= e.now == clock
      ensures |ListOf(m.f, p)| < |ListOf(old(m).f, p)|
    {
      ghost var s := m;
      var now, key, pos := RefileHead(p, r, first);
      e := RefiledTurn(s, p, r, first, snapshot, now, key, pos, m);
    }

    static lemma RefiledTurn(s: State, p: Place, r: Rid, first: nat, snapshot: Time,
                             now: Time, key: Time, pos: nat, t: State)
      returns (e: Event)
      requires ScanHere(s, p, r) && s.reqs[r].rateLimited && first > 0 && key == now + first
      requires Fits(s, RateLimited, key, pos) && t == Refiled(s, r, key, pos)
      ensures ScanTurn(s, p, r, snapshot, e, t) && e.now == now && |ListOf(t.f, p)| < |ListOf(s.f, p)|
    {
      e := Scan(p, r, snapshot, first, now, 0, now, Launch(0, false, now, pos));
      RefiledScan(s, r, first, now, key, pos);
      ScanShrinks(s, p, r, first, now, 0, now, e.launch);
    }

    static lemma RefiledScan(s: State, r: Rid, first: nat, now: Time, key: Time, pos: nat)
      requires r in s.reqs && r in s.f.place && s.reqs[r].rateLimited && first > 0 && key == now + first
      ensures Refiled(s, r, key, pos) == DoScan(s, r, first, now, 0, now, Launch(0, false, now, pos))
    {}

    method TryStart(p: Place, r: Rid, snapshot: Time) returns (go: bool, ghost e: Event)
      requires Rep() && ScanHere(m, p, r)
      modifies this
      ensures Rep() && ScanTurn(old(m), p, r, snapshot, e, m) && old(clock) <= e.now <= clock
      ensures !go ==> Stopped(old(m), r, e) && m == old(m)
      ensures go ==> |ListOf(m.f, p)| < |ListOf(old(m).f, p)|
    {
      ghost var s := m;
      var poll, now;
      go, poll, now := RequestReady(r);
      var l := Launch(0, false, now, 0);
      if go {
        l := StartHead(p, r);
        ScanShrinks(s, p, r, 0, now, poll, now, l);
      }
      e := Scan(p, r, snapshot, 0, now, poll, now, l);
    }

    static lemma ScanShrinks(s: State, p: Place, r: Rid, first: nat, firstNow: Time, poll: nat, now: Time, l: Launch)
      requires ScanHere(s, p, r) && ((s.reqs[r].rateLimited && first > 0) || Ready(s, r, poll, now))
      ensures |ListOf(DoScan(s, r, first, firstNow, poll, now, l).f, p)| < |ListOf(s.f, p)|
    {
      TakenLists(s.f, r);
      WithoutLength(ListOf(s.f, p), r);
    }

    /** Scan a multimap from its head until it is empty or its head has to stay. */
    method ScanMultimap(p: Place, snapshot: Time, ghost s: State, ghost before: seq<Event>)
      returns (ghost events: seq<Event>, ghost due: Time)
      requires Rep() && Reachable(s) && Run(s, before, m) && Scannable(m, p) && snapshot <= clock
      modifies this
      ensures Rep() && Run(s, events, m) && Scannable(m, p) && ScannedOn(before, events, p)
      ensures Stays(m, events, p, due) && old(clock) <= clock
      ensures if p == Root then due == snapshot else old(clock) <= due <= clock
    {
      events, due := before, if p == Root then snapshot else clock;
      var go := true;
      while go && MultimapOf(p) != []
        invariant Rep() && Run(s, events, m) && Scannable(m, p) && ScannedOn(before, events, p)
        invariant old(clock) <= clock && if p == Root then due == snapshot else old(clock) <= due <= clock
        invariant !go ==> Stays(m, events, p, due)
        decreases |ListOf(m.f, p)|, if go then 1 else 0
      {
        ghost var more;
        go, more, due := ScanTurnOf(p, MultimapOf(p)[0], snapshot, s, events);
        ScannedMore(before, events, p, more);
        events := more;
      }
    }

    method ScanTurnOf(p: Place, r: Rid, snapshot: Time, ghost s: State, ghost before: seq<Event>)
      returns (go: bool, ghost events: seq<Event>, ghost due: Time)
      requires Rep() && Reachable(s) && Run(s, before, m) && Scannable(m, p) && snapshot <= clock
      requires ListOf(m.f, p) != [] && r == ListOf(m.f, p)[0]
      modifies this
      ensures Rep() && Run(s, events, m) && Scannable(m, p) && ScannedOn(before, events, p)
      ensures old(clock) <= clock && if p == Root then due == snapshot else old(clock) <= due <= clock
      ensures |ListOf(m.f, p)| < |ListOf(old(m).f, p)| || (!go && m == old(m))
      ensures !go ==> Stays(m, events, p, due)
    {
      ScanNext(s, before, m, p);
      assert reqs[r].req == m.reqs[r];
      if p == Root && snapshot < reqs[r].req.key {
        return false, before, snapshot;
      }
      ghost var t := m;
      ghost var e;
      go, e := ScanOne(p, r, snapshot);
      ScanEnabled(t, p, r, snapshot, e, m);
      RunExtend(s, before, t, e);
      ScannedOne(before, e);
      events, due := before + [e], if p == Root then snapshot else e.now;
      if !go {
        StoppedStays(s, before, t, e);
      }
    }

    /** The loop thread takes over the rate-limited multimap. */
    method DetachRateLimited()
      requires Rep() && ListOf(m.f, Root) == []
      modifies this`rateLimitedRequests, this`detachedRequests, this`m
      ensures Rep() && m == old(m).(f := Move(old(m).f, RateLimited, Root), mode := Scanning)
    {
      ghost var t := m.(f := Move(m.f, RateLimited, Root), mode := Scanning);
      SwappedLinks(RateLimited, Root);
      detachedRequests := rateLimitedRequests;
      rateLimitedRequests := [];
      assert Mapped(t.f);
      Become(t);
    }

    /** The merged multimap is the loop's again. */
    method ReattachRateLimited()
      requires Rep() && ListOf(m.f, RateLimited) == []
      modifies this`rateLimitedRequests, this`detachedRequests, this`m
      ensures Rep() && m == old(m).(f := Move(old(m).f, Root, RateLimited), mode := Running)
    {
      ghost var t := m.(f := Move(m.f, Root, RateLimited), mode := Running);
      SwappedLinks(Root, RateLimited);
      rateLimitedRequests := detachedRequests;
      detachedRequests := [];
      assert Mapped(t.f);
      Become(t);
    }

    lemma SwappedLinks(p: Place, q: Place)
      requires Links(m) && p != q && p in {RateLimited, Root} && q in {RateLimited, Root}
      ensures Links(m.(f := Move(m.f, p, q)))
      ensures var h := Move(m.f, p, q);
        && ListOf(h, Queued) == ListOf(m.f, Queued) && ListOf(h, Inactive) == ListOf(m.f, Inactive)
        && ListOf(h, Refresh) == ListOf(m.f, Refresh) && ListOf(h, p) == [] && ListOf(h, q) == ListOf(m.f, p)
    {
      MoveShape(m.f, p, q);
      ListsSame(reqs, nodes, m.f, Move(m.f, p, q), pendingRequests, cancelledRequests, m.cancelled, m.cancelWork);
    }

    /** What was refiled meanwhile is merged into the detached multimap. */
    method MergeRefiled(ghost s: State, ghost before: seq<Event>) returns (ghost events: seq<Event>)
      requires Rep() && Reachable(s) && Run(s, before, m) && Scannable(m, Root)
      modifies this
      ensures Rep() && Run(s, events, m) && Scannable(m, Root) && ListOf(m.f, RateLimited) == []
      ensures clock == old(clock) && forall at :: AllExcused(old(m), before, at) ==> AllExcused(m, events, at)
    {
      events := before;
      while rateLimitedRequests != []
        invariant Rep() && Run(s, events, m) && Scannable(m, Root) && clock == old(clock)
        invariant forall at :: AllExcused(old(m), before, at) ==> AllExcused(m, events, at)
        decreases |ListOf(m.f, RateLimited)|
      {
        events := MergeFirst(rateLimitedRequests[0], s, events);
      }
    }

    method MergeFirst(r: Rid, ghost s: State, ghost before: seq<Event>) returns (ghost events: seq<Event>)
      requires Rep() && Reachable(s) && Run(s, before, m) && Scannable(m, Root)
      requires ListOf(m.f, RateLimited) != [] && r == ListOf(m.f, RateLimited)[0]
      modifies this
      ensures Rep() && Run(s, events, m) && Scannable(m, Root) && clock == old(clock)
      ensures |ListOf(m.f, RateLimited)| < |ListOf(old(m).f, RateLimited)|
      ensures forall at :: AllExcused(old(m), before, at) ==> AllExcused(m, events, at)
    {
      ghost var t := m;
      MergeNext(s, before, m);
      var pos := MergeHead(r);
      MergeShrinks(t, r, pos);
      RunExtend(s, before, t, MergeOne(r, pos));
      events := before + [MergeOne(r, pos)];
      MergedOne(s, before, t, MergeOne(r, pos));
    }

    method MergeHead(r: Rid) returns (pos: nat)
      requires Rep() && MergeHere(m, r)
      modifies this`queuedRequests, this`inactiveRequests, this`refreshRequests, this`rateLimitedRequests
      modifies this`detachedRequests, this`numQueued, this`numInactive, this`numRefresh, this`m
      ensures Rep() && Fits(old(m), Root, old(m).reqs[r].key, pos)
      ensures m == Put(Take(old(m), r), r, Root, pos)
    {
      ghost var s := m;
      EraseFrom(RateLimited, r);
      pos := InsertInto(Root, r);
      FitsUntaken(s, r, Root, s.reqs[r].key, pos);
    }

    static lemma MergeShrinks(s: State, r: Rid, pos: nat)
      requires MergeHere(s, r)
      ensures |ListOf(Put(Take(s, r), r, Root, pos).f, RateLimited)| < |ListOf(s.f, RateLimited)|
    {
      TakenLists(s.f, r);
      WithoutLength(ListOf(s.f, RateLimited), r);
    }

    static lemma MergedOne(s: State, before: seq<Event>, t: State, e: Event)
      requires Reachable(s) && Run(s, before, t) && Enabled(t, e) && e.MergeOne?
      ensures forall at :: AllExcused(t, before, at) ==> AllExcused(Apply(t, e), before + [e], at)
    {
      ReachableRun(s, before, t);
      forall at | AllExcused(t, before, at) ensures AllExcused(Apply(t, e), before + [e], at) {
        MergeExcuses(t, before, e, at);
      }
    }

    /**
     move_inactive_requests_to_queue, when no request that it may move has been cancelled since the
     drain. It ends, and whatever it leaves it leaves for a reason. A rate-limited request was not due,
     was turned away in this call, or stands behind one whose second poll turned it away, unless no slot
     is free. The other two multimaps are empty, or their heads are not due or were turned away by a
     second poll, unless no slot is free; so without a rate limit at the head nothing in them was due.
    */
    method MoveInactiveRequestsToQueue()
      returns (ghost events: seq<Event>, ghost limitedAt: Time, ghost refreshAt: Time, ghost inactiveAt: Time)
      requires Valid() && CancelsQueued(m)
      modifies this
      ensures Valid() && Run(old(m), events, m) && CancelsQueued(m)
      ensures old(clock) <= limitedAt <= refreshAt <= inactiveAt <= clock
      ensures forall r <- rateLimitedRequests :: Excused(m, events, r, limitedAt)
      ensures Stays(m, events, Refresh, refreshAt) && Stays(m, events, Inactive, inactiveAt)
      ensures refreshRequests == [] || refreshRequests[0] in reqs
      ensures refreshRequests != [] && numQueued < maxConcurrent && !reqs[refreshRequests[0]].req.rateLimited ==>
        forall r <- refreshRequests :: r in reqs && refreshAt < reqs[r].req.key
      ensures inactiveRequests == [] || inactiveRequests[0] in reqs
      ensures inactiveRequests != [] && numQueued < maxConcurrent && !reqs[inactiveRequests[0]].req.rateLimited ==>
        forall r <- inactiveRequests :: r in reqs && inactiveAt < reqs[r].req.key
    {
      ghost var s := m;
      events, limitedAt := ScanRateLimited();
      events, refreshAt := ScanRefresh(s, events, limitedAt);
      events, inactiveAt := ScanInactive(s, events, limitedAt, refreshAt);
      ReachableRun(s, events, m);
      NothingDue(m, events, Refresh, refreshAt);
      NothingDue(m, events, Inactive, inactiveAt);
    }

    method ScanRefresh(ghost s: State, ghost before: seq<Event>, ghost at: Time)
      returns (ghost events: seq<Event>, ghost due: Time)
      requires Rep() && Reachable(s) && Run(s, before, m) && Scannable(m, Refresh) && AllExcused(m, before, at)
      modifies this
      ensures Rep() && Run(s, events, m) && Scannable(m, Inactive) && AllExcused(m, events, at)
      ensures Stays(m, events, Refresh, due) && old(clock) <= due <= clock
    {
      ghost var u := m;
      events, due := ScanMultimap(Refresh, clock, s, before);
      AfterScan(s, before, u, events, m, Refresh, at);
    }

    method ScanInactive(ghost s: State, ghost before: seq<Event>, ghost at: Time, ghost refreshAt: Time)
      returns (ghost events: seq<Event>, ghost due: Time)
      requires Rep() && Reachable(s) && Run(s, before, m) && Scannable(m, Inactive) && AllExcused(m, before, at)
      requires Stays(m, before, Refresh, refreshAt)
      modifies this
      ensures Rep() && Run(s, events, m) && Scannable(m, Inactive) && AllExcused(m, events, at)
      ensures Stays(m, events, Refresh, refreshAt) && Stays(m, events, Inactive, due) && old(clock) <= due <= clock
    {
      ghost var u := m;
      events, due := ScanMultimap(Inactive, clock, s, before);
      AfterScan(s, before, u, events, m, Inactive, at);
      AfterInactive(s, before, u, events, m, refreshAt);
    }

    method ScanRateLimited() returns (ghost events: seq<Event>, ghost at: Time)
      requires Valid() && CancelsQueued(m)
      modifies this
      ensures Rep() && Run(old(m), events, m) && Scannable(m, Refresh) && AllExcused(m, events, at)
      ensures old(clock) <= at <= clock
    {
      ghost var s := m;
      BetweenScans(m);
      LastEvent(s, DetachRate);
      DetachRateLimited();
      events, at := ScanDetached(s, [DetachRate]);
      events := EndScan(s, events, at);
    }

    method EndScan(ghost s: State, ghost before: seq<Event>, ghost at: Time) returns (ghost events: seq<Event>)
      requires Rep() && Reachable(s) && Run(s, before, m) && Scannable(m, Root) && ListOf(m.f, RateLimited) == []
      requires AllExcused(m, before, at)
      modifies this
      ensures Rep() && Run(s, events, m) && Scannable(m, Refresh) && clock == old(clock) && AllExcused(m, events, at)
    {
      RunExtend(s, before, m, ScanEnd);
      EndExcuses(m, before, at);
      ReattachRateLimited();
      events := before + [ScanEnd];
    }

    method ScanDetached(ghost s: State, ghost before: seq<Event>) returns (ghost events: seq<Event>, ghost at: Time)
      requires Rep() && Reachable(s) && Run(s, before, m) && Scannable(m, Root) && ListOf(m.f, RateLimited) == []
      modifies this
      ensures Rep() && Run(s, events, m) && Scannable(m, Root) && ListOf(m.f, RateLimited) == []
      ensures AllExcused(m, events, at) && old(clock) <= at <= clock
    {
      var now := Now();
      events := ScanRoot(s, before, now);
      at := now;
      events := MergeRefiled(s, events);
    }

    method ScanRoot(ghost s: State, ghost before: seq<Event>, now: Time) returns (ghost events: seq<Event>)
      requires Rep() && Reachable(s) && Run(s, before, m) && Scannable(m, Root) && ListOf(m.f, RateLimited) == []
      requires now <= clock
      modifies this
      ensures Rep() && Run(s, events, m) && Scannable(m, Root) && AllExcused(m, events, now) && old(clock) <= clock
    {
      ghost var u := m;
      ghost var due;
      events, due := ScanMultimap(Root, now, s, before);
      AfterRoot(s, before, u, events, m, now);
    }

    // ----- process_completed_requests

    /** New fields, and the handle cleaned up. */
    method Recycle(r: Rid, q: Request)
      requires Rep() && r in reqs && (reqs[r].req.isCancelled ==> q.isCancelled)
      modifies this`reqs, this`numMulti, this`m
      ensures Rep() && m == Cleanup(SetReq(old(m), r, q), r)
    {
      SetRequest(r, q);
      CleanupRequest(r);
    }

    /** The request goes back into the multimap of its kind, its handle cleaned up. */
    method FileAgain(r: Rid, q: Request) returns (pos: nat)
      requires Rep() && Refilable(m, r) && q.refresh == m.reqs[r].refresh && q.isCancelled == m.reqs[r].isCancelled
      modifies this`reqs, this`numMulti, this`queuedRequests, this`inactiveRequests, this`refreshRequests
      modifies this`rateLimitedRequests, this`detachedRequests, this`numQueued, this`numInactive, this`numRefresh
      modifies this`m
      ensures Rep() && Fits(old(m), EnqueuePlace(q), q.key, pos)
      ensures m == Put(Cleanup(SetReq(old(m), r, q), r), r, EnqueuePlace(q), pos)
    {
      ghost var s := m;
      RecycledShape(s, r, q);
      Recycle(r, q);
      ghost var u := m;
      pos := EnqueueRequest(r);
      FitsBack(s, u, r, EnqueuePlace(q), q.key, pos);
    }

    static lemma RecycledShape(s: State, r: Rid, q: Request)
      requires Refilable(s, r) && q.refresh == s.reqs[r].refresh
      ensures var u := Cleanup(SetReq(s, r, q), r);
        && u.f == s.f && r in u.reqs && u.reqs == s.reqs[r := u.reqs[r]]
        && u.reqs[r].key == q.key && u.reqs[r].refresh == q.refresh
        && Orderly(u, EnqueuePlace(q)) && Unlisted(s, EnqueuePlace(q), r)
    {
      var u := Cleanup(SetReq(s, r, q), r);
      assert s.reqs[r := q][r := q.(attached := false)] == s.reqs[r := q.(attached := false)];
      StillOrderly(s, u, r, EnqueuePlace(q));
    }

    /** 429 on a rate-limited request: the handle stays where it is. */
    method ConcludeTooMany(r: Rid, c: Completion, key: Time) returns (pos: nat)
      requires Rep() && Refilable(m, r) && OutcomeOf(m.reqs[r], c) == TooMany
      requires key == NewKey(m.reqs[r], c)
      modifies this`reqs, this`queuedRequests, this`inactiveRequests, this`refreshRequests, this`rateLimitedRequests
      modifies this`detachedRequests, this`numQueued, this`numInactive, this`numRefresh, this`m
      ensures Rep() && Conclusion(old(m), r, old(m).reqs[r], c.(pos := pos)) == Some(m)
    {
      ghost var s := m;
      pos := FileRateLimited(r, key);
      TooManyConcluded(s, r, c, key, pos, m);
    }

    static lemma TooManyConcluded(s: State, r: Rid, c: Completion, key: Time, pos: nat, t: State)
      requires r in s.reqs && OutcomeOf(s.reqs[r], c) == TooMany && key == NewKey(s.reqs[r], c)
      requires t == Put(Rekey(s, r, key), r, RateLimited, pos) && Fits(s, RateLimited, key, pos)
      ensures Conclusion(s, r, s.reqs[r], c.(pos := pos)) == Some(t)
    {
      PosIrrelevant(s.reqs[r], c, pos);
      assert Completed(s.reqs[r], c) == s.reqs[r].(key := key);
    }

    static lemma AgainConcluded(s: State, r: Rid, q: Request, c: Completion, pos: nat, t: State)
      requires r in s.reqs && q == Completed(s.reqs[r], c) && OutcomeOf(s.reqs[r], c) in {Later, Retry, Again}
      requires t == Put(Cleanup(SetReq(s, r, q), r), r, EnqueuePlace(q), pos) && Fits(s, EnqueuePlace(q), q.key, pos)
      ensures Conclusion(s, r, s.reqs[r], c.(pos := pos)) == Some(t)
    {
      PosIrrelevant(s.reqs[r], c, pos);
    }

    static lemma PosIrrelevant(q: Request, c: Completion, pos: nat)
      ensures var d := c.(pos := pos);
        && OutcomeOf(q, d) == OutcomeOf(q, c) && Completed(q, d) == Completed(q, c)
        && EnqueuePlace(Completed(q, d)) == EnqueuePlace(q)
    {
      var d := c.(pos := pos);
      assert Answer(q, d) == Answer(q, c);
      assert RetryAllowed(q, d) == RetryAllowed(q, c);
    }

    /** Later, once more, or again and again. */
    method ConcludeAgain(r: Rid, q: Request, c: Completion) returns (pos: nat)
      requires Rep() && Refilable(m, r) && q == Completed(m.reqs[r], c)
      requires OutcomeOf(m.reqs[r], c) in {Later, Retry, Again}
      modifies this`reqs, this`numMulti, this`queuedRequests, this`inactiveRequests, this`refreshRequests
      modifies this`rateLimitedRequests, this`detachedRequests, this`numQueued, this`numInactive, this`numRefresh
      modifies this`m
      ensures Rep() && Conclusion(old(m), r, old(m).reqs[r], c.(pos := pos)) == Some(m)
    {
      pos := FileAgain(r, q);
      AgainConcluded(old(m), r, q, c, pos, m);
    }

    method ConcludeFinished(r: Rid, c: Completion)
      requires Rep() && Refilable(m, r) && OutcomeOf(m.reqs[r], c) == Finished
      modifies this`reqs, this`nodes, this`numMulti, this`cleanups, this`freed, this`m
      ensures Rep() && Conclusion(old(m), r, old(m).reqs[r], c) == Some(m)
    {
      assert Completed(m.reqs[r], c) == m.reqs[r];
      assert m.reqs[r := m.reqs[r]] == m.reqs;
      DestroyRequest(r);
    }

    /** What becomes of a request whose transfer is over, once it is out of the queue. */
    method Conclude(r: Rid, c: Completion) returns (pos: nat)
      requires Rep() && Refilable(m, r) && !CallsMissingRetry(m.reqs[r], c)
      modifies this
      ensures Rep() && Conclusion(old(m), r, old(m).reqs[r], c.(pos := pos)) == Some(m)
    {
      var q := reqs[r].req;
      assert q == m.reqs[r];
      if c.tooMany && q.rateLimited {
        pos := ConcludeTooMany(r, c, c.now + c.backoff * 1_000_000_000);
      } else {
        pos := ConcludeAnswer(r, c, if c.ok || q.onFailure then c.answer else -1);
      }
    }

    method ConcludeAnswer(r: Rid, c: Completion, retryIn: int) returns (pos: nat)
      requires Rep() && Refilable(m, r) && !(c.tooMany && m.reqs[r].rateLimited)
      requires retryIn == Answer(m.reqs[r], c) && (retryIn < 0 ==> m.reqs[r].policy != NoPolicy)
      modifies this
      ensures Rep() && Conclusion(old(m), r, old(m).reqs[r], c.(pos := pos)) == Some(m)
    {
      var q := reqs[r].req;
      assert q == m.reqs[r];
      if retryIn > 0 {
        pos := ConcludeAgain(r, q.(key := c.now + retryIn * 1_000_000_000), c);
      } else if retryIn < 0 && RetryAllowed(q, c) {
        pos := ConcludeAgain(r, Retried(q, c), c);
      } else if q.refresh {
        pos := ConcludeAgain(r, q.(retries := 0), c);
      } else {
        pos := c.pos;
        ConcludeFinished(r, c);
      }
    }

    /** The fields on_retry leaves when it grants a retry. */
    static function Retried(q: Request, c: Completion): Request {
      if q.policy == DefaultPolicy then q.(key := c.newKey, retries := q.retries + 1, granted := q.granted + 1)
      else q.(key := c.newKey)
    }

    /** One finished transfer. */
    method CompleteRequest(r: Rid, c: Completion) returns (pos: nat)
      requires Rep() && CompleteHere(m, r) && !CallsMissingRetry(m.reqs[r], c)
      modifies this
      ensures Rep() && m == DoComplete(old(m), r, c.(pos := pos)) && CompleteFits(old(m), r, c.(pos := pos))
    {
      ghost var s := m;
      EraseFrom(Queued, r);
      pos := Conclude(r, c);
      ConcludedComplete(s, r, c.(pos := pos), m);
    }

    static lemma ConcludedComplete(s: State, r: Rid, c: Completion, t: State)
      requires r in s.reqs && r in s.f.place && s.f.place[r] == Queued
      requires Conclusion(Take(s, r), r, s.reqs[r], c) == Some(t)
      ensures t == DoComplete(s, r, c) && CompleteFits(s, r, c)
    {
      var q, key := s.reqs[r], Completed(s.reqs[r], c).key;
      match OutcomeOf(q, c)
      case TooMany => FitsUntaken(s, r, RateLimited, key, c.pos);
      case Finished =>
      case _ => FitsUntaken(s, r, EnqueuePlace(q), key, c.pos);
    }

    /** process_completed_requests, given the messages libcurl has and what the callbacks answer. */
    method ProcessCompletedRequests(messages: seq<Message>) returns (ghost events: seq<Event>)
      requires Valid() && Distinct(Senders(messages)) && AllFit(m, messages, 0)
      modifies this
      ensures Valid() && Run(old(m), events, m) && Completes(events, messages, |messages|)
    {
      events := [];
      ghost var s := m;
      var i := 0;
      while i < |messages|
        invariant 0 <= i <= |messages| && Rep() && Run(s, events, m) && m.mode.Running?
        invariant AllFit(m, messages, i) && Completes(events, messages, i)
      {
        ghost var e := CompleteNext(messages, i, s, events);
        CompletesMore(events, e, messages, i);
        events := events + [e];
        i := i + 1;
      }
      ReachableRun(s, events, m);
    }

    method CompleteNext(messages: seq<Message>, i: nat, ghost s: State, ghost before: seq<Event>)
      returns (ghost e: Event)
      requires Rep() && Reachable(s) && Run(s, before, m) && m.mode.Running?
      requires i < |messages| && Distinct(Senders(messages)) && AllFit(m, messages, i)
      modifies this
      ensures Rep() && Run(s, before + [e], m) && m.mode.Running?
      ensures e.Complete? && e.r == messages[i].r && AllFit(m, messages, i + 1)
    {
      ghost var t := m;
      var msg := messages[i];
      CompleteIsHere(s, before, m, msg);
      var pos := CompleteRequest(msg.r, msg.c);
      ghost var c := msg.c.(pos := pos);
      CompletedEvent(t, msg, c);
      RunExtend(s, before, t, Complete(msg.r, c));
      e := Complete(msg.r, c);
      OthersFit(t, msg.r, c, messages, i);
    }

    // ----- curl_event_loop_destroy

    /** Destroy what is in one multimap. */
    method CloseMultimap(p: Place, ghost k: nat, ghost s: State, ghost before: seq<Event>)
      returns (ghost events: seq<Event>)
      requires Rep() && Reachable(s) && Run(s, before, m) && Emptying(m, k)
      requires p in {Queued, Inactive, Refresh, RateLimited} && k == ClosingRank(p)
      modifies this
      ensures Rep() && Run(s, events, m) && Emptying(m, k + 1)
    {
      events := before;
      while MultimapOf(p) != []
        invariant Rep() && Run(s, events, m) && Emptying(m, k)
        decreases |ListOf(m.f, p)|
      {
        var r := MultimapOf(p)[0];
        ghost var t := m;
        CloseNextHere(s, events, m, p);
        CloseNextTurn(m, p, r);
        EraseFrom(p, r);
        DestroyRequest(r);
        RunExtend(s, events, t, CloseNext(p, r));
        events := events + [CloseNext(p, r)];
      }
      ClosedOne(m, p);
    }

    /** Destroy what is pending. */
    method ClosePending(ghost s: State, ghost before: seq<Event>) returns (ghost events: seq<Event>)
      requires Rep() && Reachable(s) && Run(s, before, m) && Emptying(m, ClosingRank(Pending)) && m.undrained == []
      modifies this
      ensures Rep() && Run(s, events, m) && Emptying(m, 5)
    {
      events := before;
      while pendingRequests != 0
        invariant Rep() && Run(s, events, m) && Emptying(m, ClosingRank(Pending)) && m.undrained == []
        decreases |ListOf(m.f, Pending)|
      {
        var r := pendingRequests;
        PendingHead(r);
        ghost var t := m;
        CloseNextHere(s, events, m, Pending);
        CloseNextTurn(m, Pending, r);
        PopPending(r);
        DestroyRequest(r);
        RunExtend(s, events, t, CloseNext(Pending, r));
        events := events + [CloseNext(Pending, r)];
      }
      NoPendingLeft();
      ClosedOne(m, Pending);
    }

    lemma PendingHead(r: Rid)
      requires Links(m) && r == pendingRequests != 0
      ensures ListOf(m.f, Pending) != [] && r == ListOf(m.f, Pending)[0]
    {}

    lemma NoPendingLeft()
      requires Links(m) && pendingRequests == 0
      ensures ListOf(m.f, Pending) == []
    {
      var l := ListOf(m.f, Pending);
      assert l != [] ==> Linked(reqs, l, 0);
    }

    method PopPending(r: Rid)
      requires Rep() && ListOf(m.f, Pending) != [] && r == ListOf(m.f, Pending)[0]
      requires r in m.f.place && m.f.place[r] == Pending
      modifies this`pendingRequests, this`m
      ensures Rep() && m == Take(old(m), r)
    {
      PoppedPending(m, r);
      PendingPopped(reqs, nodes, m.f, Take(m, r).f, pendingRequests, cancelledRequests, m.cancelled, m.cancelWork);
      pendingRequests := reqs[r].nextPending;
      Become(Take(m, r));
    }

    static lemma PoppedPending(s: State, r: Rid)
      requires ListOf(s.f, Pending) != [] && r == ListOf(s.f, Pending)[0] && r in s.f.place && s.f.place[r] == Pending
      ensures var t := Take(s, r); Relisted(s.f, t.f, Pending, ListOf(s.f, Pending)[1..]) && SameMaps(s.f, t.f)
    {
      TakenLists(s.f, r);
    }

    /** One waiter of a node that is being taken apart: told, and destroyed. */
    method CloseOneWaiter(r: Rid) returns (next: Rid)
      requires Rep() && WaiterHere(m, r)
      modifies this
      ensures Rep() && m == Destroy(Abort(Take(old(m), r), r), r)
      ensures next == From(ListOf(old(m).f, Work)[1..], 0)
    {
      next := PopWork(r);
      ClearNext(r);
      AbortRequest(r);
      DestroyRequest(r);
    }

    method CloseNextWaiter(r: Rid, ghost s: State, ghost before: seq<Event>)
      returns (next: Rid, ghost events: seq<Event>)
      requires Rep() && Reachable(s) && Run(s, before, m) && m.mode.ClosingNode?
      requires ListOf(m.f, Work) != [] && r == ListOf(m.f, Work)[0]
      modifies this
      ensures Rep() && Run(s, events, m) && m.mode == old(m).mode && next == From(ListOf(m.f, Work), 0)
      ensures ListOf(m.f, Work) == ListOf(old(m).f, Work)[1..] && (EmptyBefore(old(m).f, 5) ==> EmptyBefore(m.f, 5))
      ensures m.g.nodes.Keys <= old(m).g.nodes.Keys
    {
      ghost var t := m;
      ClosingWaiterHere(s, before, m);
      CloseWaiterTurn(m, r);
      RunExtend(s, before, m, CloseWaiter(r));
      next := CloseOneWaiter(r);
      events := before + [CloseWaiter(r)];
    }

    method CloseWaiters(first: Rid, ghost s: State, ghost before: seq<Event>) returns (ghost events: seq<Event>)
      requires Rep() && Reachable(s) && Run(s, before, m) && m.mode.ClosingNode? && first == From(ListOf(m.f, Work), 0)
      modifies this
      ensures Rep() && Run(s, events, m) && m.mode == old(m).mode && ListOf(m.f, Work) == []
      ensures (EmptyBefore(old(m).f, 5) ==> EmptyBefore(m.f, 5)) && m.g.nodes.Keys <= old(m).g.nodes.Keys
    {
      var head := first;
      events := before;
      while head != 0
        invariant Rep() && Run(s, events, m) && m.mode == old(m).mode && head == From(ListOf(m.f, Work), 0)
        invariant (EmptyBefore(old(m).f, 5) ==> EmptyBefore(m.f, 5)) && m.g.nodes.Keys <= old(m).g.nodes.Keys
        decreases |ListOf(m.f, Work)|
      {
        head, events := CloseNextWaiter(head, s, events);
      }
      NoWorkLeft();
    }

    /** The first node of the resource map, taken apart. */
    method CloseFirstNode(ghost s: State, ghost before: seq<Event>) returns (ghost events: seq<Event>)
      requires Rep() && Reachable(s) && !Open(s.mode) && s.undrained == [] && CloseSafe(s) && Run(s, before, m)
      requires Emptying(m, 5) && nodes != map[]
      modifies this
      ensures Rep() && Run(s, events, m) && Emptying(m, 5) && m.g.nodes.Keys < old(m).g.nodes.Keys
    {
      ghost var least := SmallestKey(nodes);
      var id :| id in nodes && forall i <- nodes :: id <= i;
      ghost var t := m;
      CloseNodeTurn(s, before, m, id);
      var head := DetachWaiters(id, ClosingNode(id));
      RunExtend(s, before, t, CloseNode(id));
      events := CloseWaiters(head, s, before + [CloseNode(id)]);
      events := CloseLast(id, s, events);
    }

    method CloseLast(id: Id, ghost s: State, ghost before: seq<Event>) returns (ghost events: seq<Event>)
      requires Rep() && Reachable(s) && Run(s, before, m) && m.mode == ClosingNode(id) && ListOf(m.f, Work) == []
      modifies this
      ensures Rep() && Run(s, events, m) && m.mode.Closing? && m.g.nodes.Keys == old(m).g.nodes.Keys - {id}
      ensures (EmptyBefore(old(m).f, 5) ==> EmptyBefore(m.f, 5))
    {
      CloseEraseTurn(s, before, m);
      RunExtend(s, before, m, CloseErase);
      EraseNode(id);
      Become(m.(mode := LoopState.Closing));
      events := before + [CloseErase];
    }

    /** curl_resource_destroy_all. */
    method DestroyAll(ghost s: State, ghost before: seq<Event>) returns (ghost events: seq<Event>)
      requires Rep() && Reachable(s) && !Open(s.mode) && s.undrained == [] && CloseSafe(s) && Run(s, before, m)
      requires Emptying(m, 5)
      modifies this
      ensures Rep() && Run(s, events, m) && Done(m)
    {
      events := before;
      while nodes != map[]
        invariant Rep() && Run(s, events, m) && Emptying(m, 5)
        decreases m.g.nodes.Keys
      {
        events := CloseFirstNode(s, events);
      }
      StillSafe(s, events, m);
    }

    /**
     curl_event_loop_destroy, with every node that has waiters held, unless it does not get that far.
     With every cancel drained nothing is left in memory, every request was destroyed once, and every
     payload accepted with a cleanup was cleaned up once. If not, it stops short of reading the head
     of the cancelled list, which it has destroyed already.
    */
    method DestroyLoop() returns (ok: bool, ghost events: seq<Event>)
      requires Valid() && (m.cancelled == [] ==> CloseSafe(m))
      modifies this
      ensures Run(old(m), [CloseBegin] + events, m) && (ok <==> old(m).cancelled == [])
      ensures !ok ==> old(cancelledRequests) != 0 && old(cancelledRequests) !in reqs
      ensures ok ==> reqs == map[] && nodes == map[] && cleanups == m.g.accepted && Distinct(freed)
      ensures ok ==> forall r: Rid :: r in m.submitted <==> r in freed
    {
      ghost var was, s := m, Apply(m, CloseBegin);
      BeginClosing(m);
      var cancelled := GiveUpCancelled();
      events := CloseMaps(s);
      ok := WalkCancelled(cancelled, s, events);
      if ok {
        events := CloseOthers(s, events);
      }
      FirstEvent(was, CloseBegin, events, m);
    }

    /** The cancelled list as teardown finds it. */
    method GiveUpCancelled() returns (head: Rid)
      requires Rep() && m.mode.Running? && m.cancelWork == []
      modifies this`cancelledRequests, this`m
      ensures Rep() && m == Apply(old(m), CloseBegin) && head == old(cancelledRequests) == From(m.undrained, 0)
      ensures head == 0 <==> m.undrained == []
    {
      CancelsGivenUp(reqs, nodes, m.f, pendingRequests, cancelledRequests, m.cancelled);
      head := cancelledRequests;
      cancelledRequests := 0;
      Become(m.(mode := LoopState.Closing, undrained := m.cancelled, cancelled := []));
    }

    static lemma BeginClosing(s: State)
      requires Reachable(s) && s.mode.Running?
      ensures s.cancelWork == [] && Reachable(Apply(s, CloseBegin))
      ensures CloseSafe(Apply(s, CloseBegin)) <==> CloseSafe(s)
    {
      ReachableInv(s);
      ReachableStep(s, CloseBegin);
      SafeAfterBegin(s);
    }

    /** The multimaps in the order the code empties them. */
    method CloseMaps(ghost s: State) returns (ghost events: seq<Event>)
      requires Rep() && Reachable(s) && s == m && Emptying(m, 0)
      modifies this
      ensures Rep() && Run(s, events, m) && Emptying(m, 4)
    {
      events := [];
      events := CloseFirstMaps(s, events);
      events := CloseLastMaps(s, events);
    }

    method CloseFirstMaps(ghost s: State, ghost before: seq<Event>) returns (ghost events: seq<Event>)
      requires Rep() && Reachable(s) && Run(s, before, m) && Emptying(m, 0)
      modifies this
      ensures Rep() && Run(s, events, m) && Emptying(m, 2)
    {
      events := CloseMultimap(Queued, 0, s, before);
      events := CloseMultimap(Inactive, 1, s, events);
    }

    method CloseLastMaps(ghost s: State, ghost before: seq<Event>) returns (ghost events: seq<Event>)
      requires Rep() && Reachable(s) && Run(s, before, m) && Emptying(m, 2)
      modifies this
      ensures Rep() && Run(s, events, m) && Emptying(m, 4)
    {
      events := CloseMultimap(Refresh, 2, s, before);
      events := CloseRateLimited(s, events);
    }

    method CloseRateLimited(ghost s: State, ghost before: seq<Event>) returns (ghost events: seq<Event>)
      requires Rep() && Reachable(s) && Run(s, before, m) && Emptying(m, 3)
      modifies this
      ensures Rep() && Run(s, events, m) && Emptying(m, 4)
    {
      events := CloseMultimap(RateLimited, 3, s, before);
    }

    /** The walk over the cancelled list: the first thing it does is to read its head. */
    method WalkCancelled(head: Rid, ghost s: State, ghost events: seq<Event>) returns (ok: bool)
      requires Rep() && Reachable(s) && !Open(s.mode) && Run(s, events, m) && Emptying(m, 4)
      requires head == From(s.undrained, 0) && (head == 0 <==> s.undrained == [])
      ensures ok <==> s.undrained == []
      ensures !ok ==> head !in reqs && LoopSteps.WalkCancelled(m, m.undrained) == None
    {
      UndrainedFreed(s, events, m);
      return head == 0;
    }

    static lemma UndrainedFreed(s: State, events: seq<Event>, t: State)
      requires Reachable(s) && !Open(s.mode) && Run(s, events, t) && Emptying(t, 4)
      ensures t.undrained == s.undrained && forall r <- s.undrained :: r !in t.reqs
      ensures LoopSteps.WalkCancelled(t, t.undrained) == None <==> s.undrained != []
    {
      ReachableInv(s);
      SafeAlong(s, events, t);
      ReachableRun(s, events, t);
      ReachableInv(t);
      UndrainedGone(t);
      WalkFaultsIff(t);
    }

    /** The pending list and the nodes. */
    method CloseOthers(ghost s: State, ghost before: seq<Event>) returns (ghost events: seq<Event>)
      requires Rep() && Reachable(s) && !Open(s.mode) && s.undrained == [] && CloseSafe(s) && Run(s, before, m)
      requires Emptying(m, 4)
      modifies this
      ensures Rep() && Run(s, events, m) && Done(m) && reqs == map[] && nodes == map[]
      ensures cleanups == m.g.accepted && Distinct(freed) && forall r: Rid :: r in m.submitted <==> r in freed
    {
      StillSafe(s, before, m);
      events := ClosePending(s, before);
      events := DestroyAll(s, events);
      ReachableRun(s, events, m);
      NothingLeft(m);
    }
  }
}
