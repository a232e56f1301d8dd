/**
 Payloads and the end of the loop: every payload accepted with a cleanup is cleaned up exactly once,
 and teardown destroys every live request and erases every node.
*/
module Teardown {
  import opened Sequences
  import opened LoopState
  import opened LoopSteps
  import opened Filing
  import opened Counting
  import opened Waiting
  import opened LoopInvariant
  import opened LoopEvents
  import opened LoopRuns
  import opened PublishOutcome
  import opened PublishSafety

  /** The cleanups run and the payloads still held account for every payload accepted, with multiplicity. */
  lemma PayloadsBalanced(s: State)
    requires Reachable(s)
    ensures s.g.accepted == s.g.cleaned + Live(s.g.nodes)
  {
    ReachableInv(s);
  }

  /** The payload that a call of publish hands over together with a cleanup. */
  function HandedBy(e: Event): multiset<Payload> {
    match e
    case Publish(id, payload, cleanup) =>
      if cleanup && payload.Some? then multiset{payload.value} else multiset{}
    case _ => multiset{}
  }

  function Handed(events: seq<Event>): multiset<Payload>
    decreases events
  {
    if events == [] then multiset{} else HandedBy(events[0]) + Handed(events[1..])
  }

  lemma {:induction false} ReleaseDepsAccept(g: Graph, f: Files, ds: seq<Id>)
    ensures ReleaseDeps(g, f, ds).accepted == g.accepted
    decreases ds
  {
    if ds == [] {
    } else {
      ReleaseDepsAccept(ReleaseDep(g, f, ds[0]), f, ds[1..]);
    }
  }

  lemma {:induction false} RetainDepsAccept(g: Graph, ds: seq<Id>)
    ensures RetainDeps(g, ds).accepted == g.accepted
    decreases ds
  {
    if ds == [] {
    } else {
      RetainDepsAccept(RetainDep(g, ds[0]), ds[1..]);
    }
  }

  lemma DestroyAccepts(s: State, r: Rid)
    requires r in s.reqs
    ensures Destroy(s, r).g.accepted == s.g.accepted
  {
    ReleaseDepsAccept(s.g, s.f, PinnedDeps(s.reqs[r]));
  }

  lemma StartAccepts(s: State, r: Rid, l: Launch)
    requires r in s.reqs
    ensures Start(s, r, l).g.accepted == s.g.accepted
  {
    if !Refused(s.reqs[r], l) && !l.prepared { DestroyAccepts(Detach(s, r), r); }
  }

  lemma TakeOneAccepts(s: State, r: Rid, poll: nat, now: Time, launch: Launch)
    requires r in s.f.place && r in s.reqs && r in s.hist
    ensures DoTakeOne(s, r, poll, now, launch).g.accepted == s.g.accepted
  {
    var u := Taken(s, r);
    if s.reqs[r].isCancelled {
      DestroyAccepts(u, r);
    } else {
      RetainDepsAccept(u.g, u.reqs[r].deps);
      StartAccepts(Retain(u, r), r, launch);
    }
  }

  lemma ScanAccepts(s: State, e: Event)
    requires e.Scan? && Enabled(s, e)
    ensures Apply(s, e).g.accepted == s.g.accepted
  {
    StartAccepts(Take(s, e.r), e.r, e.launch);
  }

  lemma DestroyingAccepts(s: State, e: Event)
    requires Enabled(s, e)
    requires e.PublishNext? || e.DropCancelled? || e.Complete? || e.CloseNext? || e.CloseWaiter?
    ensures Apply(s, e).g.accepted == s.g.accepted
  {
    match e
    case PublishNext(r) => DestroyAccepts(Abort(Take(s, r), r), r);
    case DropCancelled(r) => DestroyAccepts(Take(s, r).(cancelWork := s.cancelWork[1..]), r);
    case Complete(r, c) => DestroyAccepts(SetReq(Take(s, r), r, Completed(s.reqs[r], c)), r);
    case CloseNext(p, r) => DestroyAccepts(Take(s, r), r);
    case CloseWaiter(r) => DestroyAccepts(Abort(Take(s, r), r), r);
  }

  lemma EventAccepts(s: State, e: Event)
    requires Enabled(s, e)
    ensures Apply(s, e).g.accepted == s.g.accepted + HandedBy(e)
  {
    if e.PublishNext? || e.DropCancelled? || e.Complete? || e.CloseNext? || e.CloseWaiter? {
      DestroyingAccepts(s, e);
    } else if e.TakeOne? {
      TakeOneAccepts(s, e.r, e.poll, e.now, e.launch);
    } else if e.Scan? {
      ScanAccepts(s, e);
    }
  }

  lemma {:induction false} RunAccepts(s: State, events: seq<Event>, t: State)
    requires Run(s, events, t)
    ensures t.g.accepted == s.g.accepted + Handed(events)
    decreases events
  {
    if events == [] {
    } else {
      EventAccepts(s, events[0]);
      RunAccepts(Apply(s, events[0]), events[1..], t);
    }
  }

  /**
   Along any run from a new loop: every payload that a call of publish has handed over with a cleanup,
   counted from the calls, has been cleaned up or is still held, with multiplicity; and when teardown
   is over each has been cleaned up.
  */
  lemma PayloadsCleaned(limit: nat, events: seq<Event>, s: State)
    requires Run(Initial(limit), events, s)
    ensures Handed(events) == s.g.cleaned + Live(s.g.nodes)
    ensures Done(s) ==> s.g.cleaned == Handed(events)
  {
    RunAccepts(Initial(limit), events, s);
    PayloadsBalanced(s);
  }

  /** Teardown is over. */
  predicate Done(s: State) {
    s.mode.Closing? && EmptyBefore(s.f, 5) && s.undrained == [] && s.g.nodes == map[]
  }

  /** At the end nothing is live, each request was destroyed once, and each payload cleaned up once. */
  lemma NothingLeft(s: State)
    requires Reachable(s) && Done(s)
    ensures s.reqs == map[] && s.g.accepted == s.g.cleaned
    ensures Distinct(s.destroyed) && forall r: Rid :: r in s.submitted <==> r in s.destroyed
  {
    ReachableInv(s);
    forall r | r in s.reqs ensures false {
      NowhereLeft(s, r);
    }
    assert s.reqs.Keys == {};
  }

  lemma NowhereLeft(s: State, r: Rid)
    requires Inv(s) && s.mode.Closing? && EmptyBefore(s.f, 5) && r in s.reqs
    ensures s.f.place[r].Blocked? && s.f.place[r].id in s.g.nodes
  {
    assert r in ListOf(s.f, s.f.place[r]);
    BlockedNode(s, r);
  }

  lemma BlockedNode(s: State, r: Rid)
    requires Tracked(s, false) && r in s.reqs && s.f.place[r].Blocked?
    ensures s.f.place[r].id in s.g.nodes
  {
    assert Waits(s.g, s.reqs[r], s.f.place[r], s.hist[r], false);
  }

  // ----- teardown runs to its end

  /** Requests and nodes left, and whether a node is being taken apart. */
  function Left(s: State): nat {
    2 * |s.reqs| + 2 * |s.g.nodes| + (if s.mode.Closing? then 1 else 0)
  }

  predicate Closer(e: Event) {
    e.CloseNext? || e.CloseNode? || e.CloseWaiter? || e.CloseErase?
  }

  lemma SmallestKey<V>(m: map<Id, V>) returns (id: Id)
    requires m != map[]
    ensures id in m && forall i <- m :: id <= i
    decreases |m|
  {
    var x :| x in m;
    var rest := m - {x};
    if rest == map[] {
      id := x;
      forall i <- m ensures id <= i {
        assert i != x ==> i in rest;
      }
    } else {
      var y := SmallestKey(rest);
      id := if y < x then y else x;
      forall i <- m ensures id <= i {
        assert i != x ==> i in rest;
      }
    }
  }

  lemma HeadFacts(s: State, p: Place)
    requires Inv(s) && ListOf(s.f, p) != []
    ensures Head(s, p, ListOf(s.f, p)[0])
  {
    PlaceOf(s, p, ListOf(s.f, p)[0]);
  }

  /** Teardown is about to walk a cancelled list whose requests it has destroyed already. */
  predicate WalkHalted(s: State) {
    s.mode.Closing? && EmptyBefore(s.f, 4) && s.undrained != []
  }

  /** Teardown is about to take `id` apart, and to read it after its waiters' destruction has freed it. */
  predicate Halted(s: State, id: Id) {
    && s.mode.Closing? && EmptyBefore(s.f, 5) && s.undrained == []
    && id in s.g.nodes && !Kept(s, id) && forall i <- s.g.nodes :: id <= i
  }

  /** Until teardown is over or halted, one of its steps can happen. */
  lemma CloseEnabled(s: State) returns (e: Event)
    requires Inv(s) && !Open(s.mode) && !Done(s) && !WalkHalted(s) && forall id <- s.g.nodes :: !Halted(s, id)
    ensures Closer(e) && Enabled(s, e)
  {
    if s.mode.ClosingNode? {
      e := ClosingNodeEnabled(s);
    } else if EmptyBefore(s.f, 5) {
      var id := SmallestKey(s.g.nodes);
      assert !Halted(s, id);
      e := CloseNode(id);
    } else {
      var p := FirstContainer(s.f);
      HeadFacts(s, p);
      e := CloseNext(p, ListOf(s.f, p)[0]);
    }
  }

  lemma ClosingNodeEnabled(s: State) returns (e: Event)
    requires Inv(s) && s.mode.ClosingNode?
    ensures Closer(e) && Enabled(s, e)
  {
    if ListOf(s.f, Work) == [] {
      e := CloseErase;
    } else {
      HeadFacts(s, Work);
      e := CloseWaiter(ListOf(s.f, Work)[0]);
    }
  }

  lemma FirstContainer(f: Files) returns (p: Place)
    requires !EmptyBefore(f, 5)
    ensures p in {Queued, Inactive, Refresh, RateLimited, Pending}
    ensures EmptyBefore(f, ClosingRank(p)) && ListOf(f, p) != []
  {
    p := if ListOf(f, Queued) != [] then Queued
         else if ListOf(f, Inactive) != [] then Inactive
         else if ListOf(f, Refresh) != [] then Refresh
         else if ListOf(f, RateLimited) != [] then RateLimited
         else Pending;
  }

  lemma {:induction false} ReleaseDepsFewer(g: Graph, f: Files, ds: seq<Id>)
    ensures ReleaseDeps(g, f, ds).nodes.Keys <= g.nodes.Keys
    decreases ds
  {
    if ds == [] {
    } else {
      ReleaseDepsFewer(ReleaseDep(g, f, ds[0]), f, ds[1..]);
    }
  }

  lemma FewerNodes(a: map<Id, Node>, b: map<Id, Node>)
    requires a.Keys <= b.Keys
    ensures |a| <= |b|
  {
    assert b.Keys == a.Keys + (b.Keys - a.Keys);
    assert |a| == |a.Keys| && |b| == |b.Keys|;
  }

  lemma OneFewer<K, V>(m: map<K, V>, k: K)
    requires k in m
    ensures |m - {k}| == |m| - 1
  {
    assert (m - {k}).Keys == m.Keys - {k};
  }

  lemma DestroyFewer(s: State, r: Rid)
    requires r in s.reqs
    ensures |Destroy(s, r).reqs| == |s.reqs| - 1 && |Destroy(s, r).g.nodes| <= |s.g.nodes|
    ensures Destroy(s, r).mode == s.mode
  {
    ReleaseDepsFewer(s.g, s.f, PinnedDeps(s.reqs[r]));
    FewerNodes(ReleaseDeps(s.g, s.f, PinnedDeps(s.reqs[r])).nodes, s.g.nodes);
    DestroyedReqs(s, r);
    OneFewer(s.reqs, r);
  }

  /** Every step of teardown leaves less to do. */
  lemma CloseDecreases(s: State, e: Event)
    requires Closer(e) && Enabled(s, e)
    ensures Left(Apply(s, e)) < Left(s) && !Open(Apply(s, e).mode) && Apply(s, e).undrained == s.undrained
  {
    match e
    case CloseNext(p, r) => DestroyFewer(Take(s, r), r);
    case CloseWaiter(r) => DestroyFewer(Abort(Take(s, r), r), r);
    case CloseNode(id) =>
    case CloseErase =>
      OneFewer(s.g.nodes, s.mode.id);
  }

  // ----- when teardown is safe

  /** What a caller can check before it destroys the loop. */
  predicate CloseSafe(s: State) {
    forall id <- s.g.nodes :: Kept(s, id)
  }

  /** Destroying a request that is not blocked, of whichever node it holds pins. */
  lemma SafeAfterDestroy(s: State, t: State, r: Rid, f: Files)
    requires s.f.place.Keys == s.reqs.Keys && r in s.reqs && !s.f.place[r].Blocked?
    requires t.reqs == s.reqs - {r} && t.g == ReleaseDeps(s.g, f, PinnedDeps(s.reqs[r]))
    requires forall x <- t.reqs :: x in t.f.place && t.f.place[x] == s.f.place[x]
    requires forall id: Id {:trigger Blocked(id)} ::
      ListOf(t.f, Blocked(id)) == ListOf(f, Blocked(id)) == ListOf(s.f, Blocked(id))
    ensures CloseSafe(t) <==> CloseSafe(s)
  {
    ReleaseDepsOutlives(s.g, f, PinnedDeps(s.reqs[r]));
    forall id <- s.g.nodes ensures if id in t.g.nodes then Kept(t, id) <==> Kept(s, id) else Kept(s, id) {
      if id in t.g.nodes { HeldSame(s, t, r, id); }
    }
  }

  lemma SafeAfterNode(s: State, id: Id)
    requires s.f.place.Keys == s.reqs.Keys && Listed(s.f) && ListOf(s.f, Work) == []
    requires id in s.g.nodes && Kept(s, id) && forall i <- s.g.nodes :: id <= i
    ensures CloseSafe(s.(f := Move(s.f, Blocked(id), Work), mode := ClosingNode(id))) <==> CloseSafe(s)
  {
    var t := s.(f := Move(s.f, Blocked(id), Work), mode := ClosingNode(id));
    MoveListed(s.f, Blocked(id), Work);
    forall i <- s.g.nodes ensures Kept(t, i) <==> Kept(s, i) {
      CloseNodeHeld(s, id, i);
    }
  }

  lemma SafeAfterBegin(s: State)
    ensures CloseSafe(s.(mode := Closing, undrained := s.cancelled, cancelled := [])) <==> CloseSafe(s)
  {
    var t := s.(mode := Closing, undrained := s.cancelled, cancelled := []);
    forall id <- s.g.nodes ensures Kept(t, id) <==> Kept(s, id) {
      assert forall x <- s.reqs :: PinsLater(t, x, id) <==> PinsLater(s, x, id);
    }
  }

  lemma SafeAfterErase(s: State, id: Id)
    requires id in s.g.nodes && ListOf(s.f, Blocked(id)) == []
    ensures CloseSafe(s.(g := Erase(s.g, id), mode := Closing)) <==> CloseSafe(s)
  {
    var t := s.(g := Erase(s.g, id), mode := Closing);
    assert t.g.nodes == s.g.nodes - {id};
    forall i <- t.g.nodes ensures Kept(t, i) <==> Kept(s, i) {
      assert forall x <- s.reqs :: PinsLater(t, x, i) <==> PinsLater(s, x, i);
    }
  }

  /** `t` is `s` without `r`, which was filed but not blocked. */
  lemma SafeAfterTake(s: State, t: State, r: Rid)
    requires s.f.place.Keys == s.reqs.Keys && Listed(s.f) && r in s.reqs
    requires !s.f.place[r].Blocked? && s.f.place[r] != Hand
    requires t.reqs == s.reqs - {r} && t.g == ReleaseDeps(s.g, Unfile(s.f, r), PinnedDeps(s.reqs[r]))
    requires t.f == Unfile(s.f, r).(place := Unfile(s.f, r).place - {r})
    ensures CloseSafe(t) <==> CloseSafe(s)
  {
    UnfileListed(s.f, r);
    forall id: Id
      ensures ListOf(t.f, Blocked(id)) == ListOf(Unfile(s.f, r), Blocked(id)) == ListOf(s.f, Blocked(id))
    {}
    SafeAfterDestroy(s, t, r, Unfile(s.f, r));
  }

  lemma DestroyTaken(s: State, r: Rid)
    requires r in s.reqs && r in s.f.place
    ensures forall t :: t == Destroy(Take(s, r), r) || t == Destroy(Abort(Take(s, r), r), r) ==>
      && t.reqs == s.reqs - {r} && t.g == ReleaseDeps(s.g, Unfile(s.f, r), PinnedDeps(s.reqs[r]))
      && t.f == Unfile(s.f, r).(place := Unfile(s.f, r).place - {r})
  {}

  lemma SafeAfterHead(s: State, p: Place, r: Rid)
    requires Filed(s) && Head(s, p, r) && !p.Blocked?
    ensures CloseSafe(Destroy(Take(s, r), r)) <==> CloseSafe(s)
    ensures CloseSafe(Destroy(Abort(Take(s, r), r), r)) <==> CloseSafe(s)
  {
    PlaceOf(s, p, r);
    DestroyTaken(s, r);
    SafeAfterTake(s, Destroy(Take(s, r), r), r);
    SafeAfterTake(s, Destroy(Abort(Take(s, r), r), r), r);
  }

  /** No step of teardown makes a safe state unsafe or an unsafe one safe. */
  lemma SafeStays(s: State, e: Event)
    requires Inv(s) && Closer(e) && Enabled(s, e)
    ensures CloseSafe(Apply(s, e)) <==> CloseSafe(s)
  {
    match e
    case CloseNext(p, r) => SafeAfterHead(s, p, r);
    case CloseNode(id) => SafeAfterNode(s, id);
    case CloseWaiter(r) => SafeAfterHead(s, Work, r);
    case CloseErase => SafeAfterErase(s, s.mode.id);
  }

  /** Nothing but teardown happens once it has begun. */
  lemma {:induction false} SafeAlong(s: State, events: seq<Event>, t: State)
    requires Inv(s) && !Open(s.mode) && Run(s, events, t)
    ensures (CloseSafe(t) <==> CloseSafe(s)) && t.undrained == s.undrained
    decreases events
  {
    if events == [] {
    } else {
      EventKeeps(s, events[0]);
      CloseDecreases(s, events[0]);
      SafeStays(s, events[0]);
      SafeAlong(Apply(s, events[0]), events[1..], t);
    }
  }

  /** Teardown has done all there was to do, or would fault. */
  predicate Over(s: State) {
    Done(s) || WalkHalted(s) || exists id <- s.g.nodes :: Halted(s, id)
  }

  /** Teardown runs until it is over or halts. */
  lemma {:induction false} CloseRest(s: State) returns (events: seq<Event>, t: State)
    requires Inv(s) && !Open(s.mode)
    ensures Run(s, events, t) && Inv(t) && (CloseSafe(t) <==> CloseSafe(s)) && t.undrained == s.undrained
    ensures Over(t)
    decreases Left(s)
  {
    if Over(s) {
      events, t := [], s;
    } else {
      var e := CloseEnabled(s);
      CloseDecreases(s, e);
      EventKeeps(s, e);
      SafeStays(s, e);
      var rest;
      rest, t := CloseRest(Apply(s, e));
      events := [e] + rest;
      FirstEvent(s, e, rest, t);
    }
  }

  lemma RunFirst(s: State, events: seq<Event>, t: State)
    requires Run(s, events, t) && events != []
    ensures Enabled(s, events[0]) && Run(Apply(s, events[0]), events[1..], t)
  {}

  lemma {:induction false} RunAppend(s: State, a: seq<Event>, t: State, b: seq<Event>, u: State)
    requires Run(s, a, t) && Run(t, b, u)
    ensures Run(s, a + b, u)
    decreases a
  {
    if a == [] {
      assert a + b == b;
    } else {
      RunFirst(s, a, t);
      RunAppend(Apply(s, a[0]), a[1..], t, b, u);
      RunLater(s, a, b, u);
    }
  }

  lemma RunLater(s: State, a: seq<Event>, b: seq<Event>, u: State)
    requires a != [] && Enabled(s, a[0]) && Run(Apply(s, a[0]), a[1..] + b, u)
    ensures Run(s, a + b, u)
  {
    FirstEvent(s, a[0], a[1..] + b, u);
    HeadFirst(a, b);
  }

  lemma HeadFirst(a: seq<Event>, b: seq<Event>)
    requires a != []
    ensures [a[0]] + (a[1..] + b) == a + b
  {}

  lemma ReachableRun(s: State, events: seq<Event>, t: State)
    requires Reachable(s) && Run(s, events, t)
    ensures Reachable(t)
  {
    var limit: nat, before :| Run(Initial(limit), before, s);
    RunAppend(Initial(limit), before, s, events, t);
  }

  lemma ReachableStep(s: State, e: Event)
    requires Reachable(s) && Enabled(s, e)
    ensures Reachable(Apply(s, e))
  {
    LastEvent(s, e);
    ReachableRun(s, [e], Apply(s, e));
  }

  lemma {:induction false} NobodyPins(reqs: map<Rid, Request>, id: Id)
    requires forall r <- reqs :: id !in PinnedDeps(reqs[r])
    ensures Pins(reqs)[id] == 0
    decreases |reqs|
  {
    if reqs == map[] {
    } else {
      var r :| r in reqs;
      PinsRemove(reqs, r);
      NobodyPins(reqs - {r}, id);
    }
  }

  /** All the pins of a node that nobody else names are its waiters'. */
  lemma {:induction false} WaitersPins(reqs: map<Rid, Request>, w: seq<Rid>, id: Id)
    requires Distinct(w) && (forall r <- w :: r in reqs) && forall r <- reqs :: r in w || id !in PinnedDeps(reqs[r])
    ensures Pins(reqs)[id] == Total(WaiterDeps(reqs, w), id)
    decreases |reqs|
  {
    if w == [] {
      NobodyPins(reqs, id);
    } else {
      var rest := reqs - {w[0]};
      PinsRemove(reqs, w[0]);
      SubsetAgree(reqs, rest, w[1..]);
      WaitersPins(rest, w[1..], id);
    }
  }

  /** Taking the node apart erases it while its waiters are destroyed, and reads it after that. */
  ghost predicate TeardownHurts(s: State, id: Id) {
    && id in s.g.nodes
    && var w := ListOf(s.f, Blocked(id));
    && (forall r <- w :: r in s.reqs)
    && id !in DestroyWaiters(s.g, Move(s.f, Blocked(id), Work), WaiterDeps(s.reqs, w)).nodes
  }

  /** When all that is left are requests blocked on this node and later ones. */
  lemma UnheldHurts(s: State, id: Id)
    requires Counted(s.g, Pins(s.reqs)) && Listed(s.f) && s.f.place.Keys == s.reqs.Keys
    requires id in s.g.nodes && !Kept(s, id) && ListOf(s.f, Work) == []
    requires forall r <- ListOf(s.f, Blocked(id)) :: id in PinnedDeps(s.reqs[r])
    requires forall r <- s.reqs :: s.f.place[r].Blocked? && id <= s.f.place[r].id
    ensures TeardownHurts(s, id)
  {
    var w := ListOf(s.f, Blocked(id));
    forall r <- s.reqs ensures r in w || id !in PinnedDeps(s.reqs[r]) {
      assert !PinsLater(s, r, id);
    }
    WaitersPins(s.reqs, w, id);
    assert w[0] in w;
    PinsHold(s.reqs, w[0], id);
    MoveListed(s.f, Blocked(id), Work);
    TeardownFaultsIff(s.g, Move(s.f, Blocked(id), Work), id, WaiterDeps(s.reqs, w));
  }

  lemma WaitersPin(s: State, id: Id)
    requires Tracked(s, false) && Listed(s.f)
    ensures forall r <- ListOf(s.f, Blocked(id)) :: id in PinnedDeps(s.reqs[r])
  {
    forall r <- ListOf(s.f, Blocked(id)) ensures id in PinnedDeps(s.reqs[r]) {
      assert Waits(s.g, s.reqs[r], s.f.place[r], s.hist[r], false);
    }
  }

  /** Where teardown halts the code reads a freed node. */
  lemma HaltedHurts(s: State, id: Id)
    requires Inv(s) && Halted(s, id)
    ensures TeardownHurts(s, id)
  {
    forall r <- s.reqs ensures s.f.place[r].Blocked? && id <= s.f.place[r].id {
      NowhereLeft(s, r);
    }
    WaitersPin(s, id);
    UnheldHurts(s, id);
  }

  // ----- the walk over the cancelled list

  /** Once the multimaps are empty, a request that was cancelled and not drained has been destroyed. */
  lemma UndrainedGone(s: State)
    requires Inv(s) && s.mode.Closing? && EmptyBefore(s.f, 4)
    ensures forall r <- s.undrained :: r !in s.reqs
  {
    forall r <- s.reqs ensures !CancelDue(s.reqs[r]) {
      assert Proper(s.reqs[r], s.f.place[r]);
      assert r in ListOf(s.f, s.f.place[r]);
    }
  }

  /** So the walk reads a freed request exactly when there is anything on the list. */
  lemma WalkFaultsIff(s: State)
    requires Inv(s) && s.mode.Closing? && EmptyBefore(s.f, 4)
    ensures WalkCancelled(s, s.undrained) == None <==> s.undrained != []
    ensures s.undrained == [] ==> WalkCancelled(s, s.undrained) == Some(s)
  {
    UndrainedGone(s);
    if s.undrained != [] { assert s.undrained[0] in s.undrained; }
  }

  // ----- destroying a loop

  lemma AfterBegin(s: State)
    requires Reachable(s) && s.mode.Running?
    ensures var u := s.(mode := Closing, undrained := s.cancelled, cancelled := []);
      Enabled(s, CloseBegin) && Apply(s, CloseBegin) == u && Inv(u) && (CloseSafe(u) <==> CloseSafe(s))
  {
    ReachableInv(s);
    EventKeeps(s, CloseBegin);
    SafeAfterBegin(s);
  }

  /**
   What a run of teardown comes to. With a cancel undrained, the walk over the cancelled list reads a
   freed request. Else, with a node that has waiters and is not held, such a node is read after it was
   freed. Else all is gone.
  */
  ghost predicate Ended(s: State, t: State) {
    if s.cancelled != [] then
      t.mode.Closing? && EmptyBefore(t.f, 4) && WalkCancelled(t, t.undrained) == None
    else if !CloseSafe(s) then
      exists id :: TeardownHurts(t, id)
    else
      && Done(t) && t.reqs == map[] && t.g.nodes == map[] && t.g.accepted == t.g.cleaned
      && Distinct(t.destroyed) && forall r: Rid :: r in t.submitted <==> r in t.destroyed
  }

  lemma ComesToEnd(s: State, events: seq<Event>, t: State)
    requires Reachable(s) && Run(s, events, t) && Inv(t) && (CloseSafe(t) <==> CloseSafe(s))
    requires t.undrained == s.cancelled && Over(t)
    ensures Reachable(t) && Ended(s, t)
  {
    ReachableRun(s, events, t);
    if WalkHalted(t) {
      WalkFaultsIff(t);
    } else if Done(t) {
      NothingLeft(t);
    } else {
      var id :| id in t.g.nodes && Halted(t, id);
      HaltedHurts(t, id);
    }
  }

  /**
   If every cancel is drained and every node that has waiters is held, teardown runs to its end: every
   submitted request has been destroyed exactly once, no node is left, and every payload accepted with
   a cleanup has been cleaned up exactly once. If not, it runs to a read of freed memory.
  */
  lemma TeardownCompletes(s: State) returns (events: seq<Event>, t: State)
    requires Reachable(s) && s.mode.Running?
    ensures Run(s, [CloseBegin] + events, t) && Reachable(t) && Ended(s, t)
  {
    AfterBegin(s);
    events, t := CloseRest(s.(mode := Closing, undrained := s.cancelled, cancelled := []));
    FirstEvent(s, CloseBegin, events, t);
    ComesToEnd(s, [CloseBegin] + events, t);
  }

  /** No run of teardown is longer than what was left to do. */
  lemma {:induction false} CloseBounded(s: State, events: seq<Event>, t: State)
    requires Inv(s) && !Open(s.mode) && Run(s, events, t)
    ensures |events| + Left(t) <= Left(s) && Inv(t) && !Open(t.mode)
    decreases events
  {
    if events == [] {
    } else {
      EventKeeps(s, events[0]);
      CloseDecreases(s, events[0]);
      CloseBounded(Apply(s, events[0]), events[1..], t);
    }
  }

  lemma AlongTeardown(s: State, events: seq<Event>, t: State)
    requires Reachable(s) && s.mode.Running? && Run(s, [CloseBegin] + events, t)
    ensures |events| <= Left(Apply(s, CloseBegin)) && Inv(t) && !Open(t.mode)
    ensures (CloseSafe(t) <==> CloseSafe(s)) && t.undrained == s.cancelled
  {
    var u := s.(mode := Closing, undrained := s.cancelled, cancelled := []);
    AfterBegin(s);
    assert ([CloseBegin] + events)[1..] == events;
    CloseBounded(u, events, t);
    SafeAlong(u, events, t);
  }

  /** And none can stop before that end, or that read. */
  lemma TeardownEnds(s: State, events: seq<Event>, t: State)
    requires Reachable(s) && s.mode.Running? && Run(s, [CloseBegin] + events, t)
    ensures |events| <= Left(Apply(s, CloseBegin))
    ensures (forall e :: !Enabled(t, e)) ==> Ended(s, t)
  {
    AlongTeardown(s, events, t);
    if Over(t) {
      ComesToEnd(s, [CloseBegin] + events, t);
    } else {
      var e := CloseEnabled(t);
    }
  }

  // ----- who is told

  /** Whether `r` waits on a node and has yet to be told that it was aborted. */
  function Owed(s: State, r: Rid): nat {
    if r in s.reqs && r in s.f.place && s.reqs[r].onFailure && (s.f.place[r].Blocked? || s.f.place[r] == Work) then 1
    else 0
  }

  function Told(s: State, r: Rid): nat {
    multiset(s.failures)[r]
  }

  ghost predicate SameTold(s: State, t: State, r: Rid) {
    Told(t, r) + Owed(t, r) == Told(s, r) + Owed(s, r)
  }

  lemma OwedWithout(s: State, t: State, x: Rid, r: Rid)
    requires x in s.reqs && t.reqs == s.reqs - {x} && t.f.place == s.f.place[x := Hand] - {x}
    ensures Owed(t, r) == if r == x then 0 else Owed(s, r)
  {}

  lemma TakenPlaces(s: State, x: Rid)
    requires x in s.reqs && x in s.f.place
    ensures var t := Destroy(Take(s, x), x);
      t.reqs == s.reqs - {x} && t.f.place == s.f.place[x := Hand] - {x} && t.failures == s.failures
    ensures var t := Destroy(Abort(Take(s, x), x), x);
      && t.reqs == s.reqs - {x} && t.f.place == s.f.place[x := Hand] - {x}
      && t.failures == s.failures + if s.reqs[x].onFailure then [x] else []
  {
    DestroyTaken(s, x);
    assert s.failures + [] == s.failures;
  }

  lemma TellHead(s: State, x: Rid, r: Rid)
    requires x in s.reqs && x in s.f.place && !s.f.place[x].Blocked? && s.f.place[x] != Work
    ensures SameTold(s, Destroy(Take(s, x), x), r)
  {
    TakenPlaces(s, x);
    OwedWithout(s, Destroy(Take(s, x), x), x, r);
  }

  lemma TellWaiter(s: State, x: Rid, r: Rid)
    requires x in s.reqs && x in s.f.place && s.f.place[x] == Work
    ensures SameTold(s, Destroy(Abort(Take(s, x), x), x), r)
  {
    TakenPlaces(s, x);
    OwedWithout(s, Destroy(Abort(Take(s, x), x), x), x, r);
  }

  lemma TellNode(s: State, id: Id, r: Rid)
    ensures SameTold(s, s.(f := Move(s.f, Blocked(id), Work), mode := ClosingNode(id)), r)
  {}

  lemma TellStep(s: State, e: Event, r: Rid)
    requires Filed(s) && Closer(e) && Enabled(s, e)
    ensures SameTold(s, Apply(s, e), r)
  {
    match e
    case CloseNext(p, x) =>
      PlaceOf(s, p, x);
      TellHead(s, x, r);
    case CloseWaiter(x) =>
      PlaceOf(s, Work, x);
      TellWaiter(s, x, r);
    case CloseNode(id) => TellNode(s, id, r);
    case CloseErase =>
  }

  lemma {:induction false} TellAlong(s: State, events: seq<Event>, t: State, r: Rid)
    requires Inv(s) && !Open(s.mode) && Run(s, events, t)
    ensures SameTold(s, t, r)
    decreases events
  {
    if events == [] {
    } else {
      EventKeeps(s, events[0]);
      CloseDecreases(s, events[0]);
      TellStep(s, events[0], r);
      TellAlong(Apply(s, events[0]), events[1..], t, r);
    }
  }

  /** A teardown that gets to its end calls on_failure once for each blocked request that has one, and for no other. */
  lemma TeardownTells(s: State, events: seq<Event>, t: State, r: Rid)
    requires Reachable(s) && s.mode.Running? && Run(s, [CloseBegin] + events, t) && Done(t)
    ensures Told(t, r) == Told(s, r) +
      if r in s.reqs && r in s.f.place && s.reqs[r].onFailure && s.f.place[r].Blocked? then 1 else 0
  {
    TellFrom(s, events, t, r);
    ReachableRun(s, [CloseBegin] + events, t);
    NothingLeft(t);
    NobodyWorks(s, r);
  }

  lemma TellFrom(s: State, events: seq<Event>, t: State, r: Rid)
    requires Reachable(s) && s.mode.Running? && Run(s, [CloseBegin] + events, t)
    ensures SameTold(s, t, r)
  {
    var u := s.(mode := Closing, undrained := s.cancelled, cancelled := []);
    AfterBegin(s);
    assert ([CloseBegin] + events)[1..] == events;
    TellAlong(u, events, t, r);
  }

  lemma NobodyWorks(s: State, r: Rid)
    requires Reachable(s) && s.mode.Running?
    ensures r in s.f.place ==> s.f.place[r] != Work
  {
    ReachableInv(s);
    assert r !in ListOf(s.f, Work);
  }
}
