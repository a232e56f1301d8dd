/**
 What requests wait for. A blocked request sits on a node that is neither published nor failed and
 that it pins; every node it was blocked on before is resolved, and stays so while it is pinned;
 a request that has passed the dependency check never needs it again.
*/
module Waiting {
  import opened Sequences
  import opened LoopState
  import opened Filing
  import opened Counting

  /** A request in place `p`, blocked so far on the nodes `h`; `open` until teardown begins. */
  ghost predicate Waits(g: Graph, q: Request, p: Place, h: seq<Id>, open: bool) {
    && (p.Blocked? ==>
          && p.id in g.nodes && !Resolved(g, p.id) && p.id in PinnedDeps(q)
          && h != [] && h[|h| - 1] == p.id)
    && Distinct(h)
    && (forall d <- h :: d in PinnedDeps(q))
    && (open ==> forall d <- h :: Resolved(g, d) || p == Blocked(d))
    && (open && ByKey(p) ==> PinnedDeps(q) == q.deps && forall d <- q.deps :: Resolved(g, d))
  }

  /** A node is never both published and failed. */
  ghost predicate NodesOk(g: Graph) {
    forall id <- g.nodes :: g.nodes[id].failed ==> g.nodes[id].payload == None
  }

  ghost predicate AllWait(s: State, open: bool) {
    && s.f.place.Keys == s.reqs.Keys == s.hist.Keys
    && forall r <- s.reqs :: Waits(s.g, s.reqs[r], s.f.place[r], s.hist[r], open)
  }

  /** Everything about nodes and the requests that depend on them. */
  ghost predicate Tracked(s: State, open: bool) {
    && AllWait(s, open)
    && Counted(s.g, Pins(s.reqs))
    && (open ==> Present(s.g, Pins(s.reqs)))
    && Balanced(s.g)
    && NodesOk(s.g)
  }

  lemma ShrunkWaits(g: Graph, h: Graph, m: multiset<Id>, q: Request, p: Place, hist: seq<Id>, open: bool)
    requires Shrunk(g, h, m) && Waits(g, q, p, hist, open) && forall d <- PinnedDeps(q) :: d in m
    ensures Waits(h, q, p, hist, open)
  {
    forall d: Id | d in PinnedDeps(q)
      ensures d in g.nodes ==> d in h.nodes && Resolved(h, d) == Resolved(g, d)
    {}
  }

  /** Every node of `g` is in `h`, resolved or not as before; new nodes hold nothing. */
  ghost predicate SameStatus(g: Graph, h: Graph) {
    && g.nodes.Keys <= h.nodes.Keys
    && forall id <- h.nodes ::
         if id in g.nodes
         then h.nodes[id].payload == g.nodes[id].payload && h.nodes[id].failed == g.nodes[id].failed
         else !h.nodes[id].failed
  }

  lemma SameStatusWaits(g: Graph, h: Graph, q: Request, p: Place, hist: seq<Id>, open: bool)
    requires SameStatus(g, h) && Waits(g, q, p, hist, open)
    ensures Waits(h, q, p, hist, open)
  {
    forall d: Id | d in g.nodes ensures d in h.nodes && Resolved(h, d) == Resolved(g, d) {}
  }

  lemma SameStatusAllWait(s: State, h: Graph, open: bool)
    requires AllWait(s, open) && SameStatus(s.g, h) && NodesOk(s.g)
    ensures AllWait(s.(g := h), open) && NodesOk(h)
  {
    forall r <- s.reqs ensures Waits(h, s.reqs[r], s.f.place[r], s.hist[r], open) {
      SameStatusWaits(s.g, h, s.reqs[r], s.f.place[r], s.hist[r], open);
    }
  }

  lemma TakeTracked(s: State, r: Rid, open: bool)
    requires Tracked(s, open) && r in s.reqs && !s.f.place[r].Blocked?
    ensures Tracked(Take(s, r), open)
  {}

  lemma PutTracked(s: State, r: Rid, p: Place, pos: nat, open: bool)
    requires Tracked(s, open) && r in s.reqs
    requires Waits(s.g, s.reqs[r], p, s.hist[r], open)
    ensures Tracked(Put(s, r, p, pos), open)
  {}

  /** A change that keeps dependencies and pins. */
  lemma SetTracked(s: State, r: Rid, q: Request, open: bool)
    requires Tracked(s, open) && r in s.reqs
    requires q.deps == s.reqs[r].deps && q.retained == s.reqs[r].retained
    ensures Tracked(SetReq(s, r, q), open)
  {
    PinsKept(s.reqs, r, q);
  }

  lemma ArriveTracked(s: State, r: Rid, q: Request, open: bool)
    requires Tracked(s, open) && r !in s.reqs && !q.retained
    ensures Tracked(Arrive(s, r, q), open)
  {
    PinsAdd(s.reqs, r, q);
    assert Pins(s.reqs) + multiset{} == Pins(s.reqs);
  }

  /** Destroying a request hands back its pins and disturbs no other request. */
  lemma DestroyTracked(s: State, r: Rid, open: bool)
    requires Tracked(s, open) && r in s.reqs
    ensures Tracked(Destroy(s, r), open)
    ensures Shrunk(s.g, Destroy(s, r).g, Pins(Destroy(s, r).reqs))
  {
    var q := s.reqs[r];
    var u := Forget(Cleanup(s, r), r);
    var h := ReleaseDeps(s.g, s.f, PinnedDeps(q));
    assert u.reqs == s.reqs - {r};
    PinsRemove(s.reqs, r);
    ForgottenTracked(s, r, open);
    ReleaseDepsCounted(s.g, s.f, PinnedDeps(q), Pins(u.reqs));
    ReleaseDepsBalanced(s.g, s.f, PinnedDeps(q));
    ShrunkAllWait(u, h, open);
  }

  lemma ForgottenTracked(s: State, r: Rid, open: bool)
    requires Tracked(s, open) && r in s.reqs
    ensures var u := Forget(Cleanup(s, r), r);
      AllWait(u, open) && u.reqs == s.reqs - {r} && u.g == s.g && (open ==> Present(u.g, Pins(u.reqs)))
  {
    var u := Forget(Cleanup(s, r), r);
    assert u.reqs == s.reqs - {r};
    PinsRemove(s.reqs, r);
  }

  lemma ShrunkAllWait(s: State, h: Graph, open: bool)
    requires AllWait(s, open) && Shrunk(s.g, h, Pins(s.reqs)) && NodesOk(s.g)
    ensures AllWait(s.(g := h), open) && NodesOk(h)
  {
    forall r <- s.reqs ensures Waits(h, s.reqs[r], s.f.place[r], s.hist[r], open) {
      forall d <- PinnedDeps(s.reqs[r]) ensures d in Pins(s.reqs) { PinsHold(s.reqs, r, d); }
      ShrunkWaits(s.g, h, Pins(s.reqs), s.reqs[r], s.f.place[r], s.hist[r], open);
    }
  }

  /** Pinning makes every dependency present and disturbs nobody. */
  lemma RetainTracked(s: State, r: Rid)
    requires Tracked(s, true) && r in s.reqs && s.f.place[r] == Hand
    ensures var t := Retain(s, r);
      && Tracked(t, true) && PinnedDeps(t.reqs[r]) == t.reqs[r].deps == s.reqs[r].deps
      && forall d <- t.reqs[r].deps :: d in t.g.nodes
  {
    var q := s.reqs[r];
    var t := Retain(s, r);
    if !q.retained && q.deps != [] {
      RetainAllWait(s, r);
      RetainPins(s, r);
      RetainDepsBalanced(s.g, q.deps);
    }
    forall d <- t.reqs[r].deps ensures d in t.g.nodes { PinsHold(t.reqs, r, d); }
  }

  lemma RetainPins(s: State, r: Rid)
    requires Counted(s.g, Pins(s.reqs)) && Present(s.g, Pins(s.reqs)) && r in s.reqs
    requires !s.reqs[r].retained && s.reqs[r].deps != []
    ensures var t := Retain(s, r); Counted(t.g, Pins(t.reqs)) && Present(t.g, Pins(t.reqs))
  {
    var q, t := s.reqs[r], Retain(s, r);
    RetainDepsCounted(s.g, q.deps, Pins(s.reqs));
    PinsSet(s.reqs, r, t.reqs[r]);
    assert Pins(t.reqs) + multiset{} == Pins(t.reqs);
  }

  lemma RetainAllWait(s: State, r: Rid)
    requires AllWait(s, true) && NodesOk(s.g) && Counted(s.g, Pins(s.reqs)) && Present(s.g, Pins(s.reqs)) && r in s.reqs
    requires !s.reqs[r].retained && s.reqs[r].deps != [] && s.f.place[r] == Hand
    ensures AllWait(Retain(s, r), true) && NodesOk(Retain(s, r).g)
  {
    var t := Retain(s, r);
    RetainDepsCounted(s.g, s.reqs[r].deps, Pins(s.reqs));
    SameStatusAllWait(s, t.g, true);
    assert t == SetReq(s.(g := t.g), r, t.reqs[r]);
    RetainedWaits(t.g, s.reqs[r], s.hist[r]);
  }

  /** Pinning dependencies asks nothing new of a request in hand. */
  lemma RetainedWaits(g: Graph, q: Request, h: seq<Id>)
    requires Waits(g, q, Hand, h, true) && !q.retained
    ensures Waits(g, q.(retained := true), Hand, h, true)
  {}

  lemma {:induction false} UnmetIsDep(g: Graph, ds: seq<Id>)
    ensures FirstUnmet(g, ds).Some? ==> FirstUnmet(g, ds).value in ds && !Resolved(g, FirstUnmet(g, ds).value)
    ensures FirstUnmet(g, ds) == None <==> forall d <- ds :: Resolved(g, d)
    decreases ds
  {
    if ds == [] {
    } else {
      assert ds == [ds[0]] + ds[1..];
      UnmetIsDep(g, ds[1..]);
    }
  }

  /** A request blocks only on a node it has never been blocked on. */
  lemma BlockTracked(s: State, r: Rid, id: Id)
    requires Tracked(s, true) && r in s.reqs && s.f.place[r] == Hand
    requires id in PinnedDeps(s.reqs[r]) && !Resolved(s.g, id)
    ensures Tracked(Block(s, r, id), true)
  {
    PinsHold(s.reqs, r, id);
    assert id !in s.hist[r];
    var t := Block(s, r, id);
    forall x <- t.reqs ensures Waits(t.g, t.reqs[x], t.f.place[x], t.hist[x], true) {
      if x == r { BlockedWaits(s.g, s.reqs[r], s.hist[r], id); }
    }
  }

  lemma BlockedWaits(g: Graph, q: Request, h: seq<Id>, id: Id)
    requires Waits(g, q, Hand, h, true) && id in PinnedDeps(q) && !Resolved(g, id) && id in g.nodes
    ensures Waits(g, q, Blocked(id), h + [id], true)
  {
    assert id !in h;
  }

  /** Publishing resolves the node; the waiters, now in Work, have nothing unresolved behind them. */
  lemma StoreTracked(s: State, id: Id, payload: Option<Payload>, cleanup: bool)
    requires Tracked(s, true)
    ensures Tracked(s.(g := Store(s.g, id, payload, cleanup), f := Move(s.f, Blocked(id), Work)), true)
  {
    var h := Store(s.g, id, payload, cleanup);
    StoreBalanced(s.g, id, payload, cleanup);
    StoreCounted(s.g, id, payload, cleanup, Pins(s.reqs));
    StoreAllWait(s, id, payload, cleanup);
  }

  lemma StoreAllWait(s: State, id: Id, payload: Option<Payload>, cleanup: bool)
    requires AllWait(s, true) && NodesOk(s.g)
    ensures AllWait(s.(g := Store(s.g, id, payload, cleanup), f := Move(s.f, Blocked(id), Work)), true)
    ensures NodesOk(Store(s.g, id, payload, cleanup))
  {
    var h := Store(s.g, id, payload, cleanup);
    var t := s.(g := h, f := Move(s.f, Blocked(id), Work));
    assert forall r <- s.reqs :: t.f.place[r] == if s.f.place[r] == Blocked(id) then Work else s.f.place[r];
    forall r <- s.reqs ensures Waits(h, s.reqs[r], t.f.place[r], s.hist[r], true) {
      StoreWaits(s.g, id, payload, cleanup, s.reqs[r], s.f.place[r], s.hist[r]);
    }
  }

  lemma StoreCounted(g: Graph, id: Id, payload: Option<Payload>, cleanup: bool, m: multiset<Id>)
    requires Counted(g, m) && Present(g, m)
    ensures Counted(Store(g, id, payload, cleanup), m) && Present(Store(g, id, payload, cleanup), m)
  {
    assert id !in g.nodes ==> m[id] == 0;
  }

  lemma StoreWaits(g: Graph, id: Id, payload: Option<Payload>, cleanup: bool, q: Request, p: Place, hist: seq<Id>)
    requires Waits(g, q, p, hist, true)
    ensures Waits(Store(g, id, payload, cleanup), q, if p == Blocked(id) then Work else p, hist, true)
  {
    var h := Store(g, id, payload, cleanup);
    forall d: Id ensures Resolved(h, d) == (d == id || Resolved(g, d)) {}
  }

  lemma AddrefCounted(g: Graph, id: Id, m: multiset<Id>)
    requires Counted(g, m) && Present(g, m)
    ensures Counted(Addref(g, id), m) && Present(Addref(g, id), m)
  {
    assert id !in g.nodes ==> m[id] == 0;
  }

  lemma AddrefTracked(s: State, id: Id)
    requires Tracked(s, true)
    ensures Tracked(s.(g := Addref(s.g, id)), true)
  {
    AddrefCounted(s.g, id, Pins(s.reqs));
    AddrefBalanced(s.g, id);
    SameStatusAllWait(s, Addref(s.g, id), true);
  }

  lemma SetAutoGraph(g: Graph, id: Id, enable: bool, m: multiset<Id>)
    requires Counted(g, m) && Present(g, m) && Balanced(g) && (enable ==> Client(g, id) >= 1)
    ensures var h := SetAuto(g, id, enable);
      Counted(h, m) && Present(h, m) && Balanced(h)
  {
    assert id !in g.nodes ==> m[id] == 0;
    CreateBalanced(g, id);
    SetBalanced(GetOrCreate(g, id), id, SetAuto(g, id, enable).nodes[id], g.client);
  }

  /** Auto-release is switched on only by the owner. */
  lemma SetAutoTracked(s: State, id: Id, enable: bool)
    requires Tracked(s, true) && (enable ==> Client(s.g, id) >= 1)
    ensures Tracked(s.(g := SetAuto(s.g, id, enable)), true)
  {
    SetAutoGraph(s.g, id, enable, Pins(s.reqs));
    SameStatusAllWait(s, SetAuto(s.g, id, enable), true);
  }

  lemma ReleaseTracked(s: State, id: Id)
    requires Tracked(s, true)
    requires id in s.g.nodes ==> Client(s.g, id) >= (if s.g.nodes[id].autoRelease then 2 else 1)
    ensures Tracked(s.(g := Release(s.g, id)), true)
  {
    ReleaseCounted(s.g, id, Pins(s.reqs));
    ReleaseBalanced(s.g, id);
    ShrunkAllWait(s, Release(s.g, id), true);
  }
}
