/** What one call of publish does to all of its waiters, from start to end. */
module PublishOutcome {
  import opened Sequences
  import opened LoopState
  import opened LoopSteps
  import opened Filing
  import opened Counting
  import opened Waiting
  import opened LoopInvariant
  import opened LoopEvents
  import opened LoopRuns
  import opened PublishSafety

  /** The rest of publish, with the waiters `w` still to handle. */
  function PublishEvents(w: seq<Rid>): seq<Event>
    decreases w
  {
    if w == [] then [PublishEnd] else [PublishNext(w[0])] + PublishEvents(w[1..])
  }

  /** The waiters that have an on_failure callback, in order. */
  function Notified(reqs: map<Rid, Request>, w: seq<Rid>): seq<Rid>
    requires forall r <- w :: r in reqs
    decreases w
  {
    if w == [] then [] else (if reqs[w[0]].onFailure then [w[0]] else []) + Notified(reqs, w[1..])
  }

  function WaiterDeps(reqs: map<Rid, Request>, w: seq<Rid>): seq<seq<Id>>
    requires forall r <- w :: r in reqs
    decreases w
  {
    if w == [] then [] else [PinnedDeps(reqs[w[0]])] + WaiterDeps(reqs, w[1..])
  }

  lemma {:induction false} SubsetAgree(reqs: map<Rid, Request>, less: map<Rid, Request>, w: seq<Rid>)
    requires forall r <- w :: r in reqs && r in less && less[r] == reqs[r]
    ensures Notified(less, w) == Notified(reqs, w) && WaiterDeps(less, w) == WaiterDeps(reqs, w)
    decreases w
  {
    if w == [] {
    } else {
      SubsetAgree(reqs, less, w[1..]);
    }
  }

  ghost predicate SameBlocked(f: Files, h: Files) {
    forall id: Id {:trigger Blocked(id)} :: ListOf(f, Blocked(id)) == ListOf(h, Blocked(id))
  }

  lemma {:induction false} ReleaseDepsSame(g: Graph, f: Files, h: Files, ds: seq<Id>)
    requires SameBlocked(f, h)
    ensures ReleaseDeps(g, f, ds) == ReleaseDeps(g, h, ds)
    decreases ds
  {
    if ds == [] {
    } else {
      assert ListOf(f, Blocked(ds[0])) == ListOf(h, Blocked(ds[0]));
      ReleaseDepsSame(ReleaseDep(g, f, ds[0]), f, h, ds[1..]);
    }
  }

  lemma {:induction false} FailWaitersSame(g: Graph, f: Files, h: Files, id: Id, q: seq<seq<Id>>)
    requires SameBlocked(f, h)
    ensures FailWaiters(g, f, id, q) == FailWaiters(g, h, id, q)
    decreases q
  {
    if q == [] || id !in g.nodes {
    } else {
      ReleaseDepsSame(g, f, h, q[0]);
      FailWaitersSame(ReleaseDeps(g, f, q[0]), f, h, id, q[1..]);
    }
  }

  /** Inside publish: the waiters not handled yet are live, and hold the node. */
  lemma NextWaiter(s: State)
    requires Inv(s) && s.mode.Publishing? && ListOf(s.f, Work) != []
    ensures var r := ListOf(s.f, Work)[0];
      && Enabled(s, PublishNext(r)) && r in s.reqs && s.f.place[r] == Work
      && s.mode.id in s.g.nodes && s.mode.id in PinnedDeps(s.reqs[r])
  {
    var r := ListOf(s.f, Work)[0];
    PlaceOf(s, Work, r);
    WaiterFacts(s, r, s.mode.id);
  }

  lemma WorkLive(s: State)
    requires Inv(s)
    ensures forall r <- ListOf(s.f, Work) :: r in s.reqs
    ensures Distinct(ListOf(s.f, Work))
  {
    forall r <- ListOf(s.f, Work) ensures r in s.reqs { PlaceOf(s, Work, r); }
  }

  /** Failing one waiter: it is told, destroyed, and its pins are handed back. */
  ghost predicate FailedOne(s: State, u: State) {
    && ListOf(s.f, Work) != []
    && var r := ListOf(s.f, Work)[0];
    && r in s.reqs && r in s.f.place
    && u.mode == s.mode && u.reqs == s.reqs - {r} && u.destroyed == s.destroyed + [r]
    && u.failures == s.failures + (if s.reqs[r].onFailure then [r] else [])
    && u.g == ReleaseDeps(s.g, s.f, PinnedDeps(s.reqs[r]))
    && forall p: Place {:trigger ListOf(u.f, p)} ::
         ListOf(u.f, p) == if p == Work then ListOf(s.f, Work)[1..] else ListOf(s.f, p)
  }

  lemma FailStep(s: State, r: Rid, id: Id)
    requires Listed(s.f) && Head(s, Work, r) && s.f.place[r] == Work && id in s.g.nodes && s.g.nodes[id].failed
    ensures FailedOne(s, DoPublishNext(s, r, id))
  {
    var u := DoPublishNext(s, r, id);
    UnfileListed(s.f, r);
    WithoutHead(ListOf(s.f, Work));
    assert u.f.lists == Unfile(s.f, r).lists;
    assert forall p: Place {:trigger ListOf(u.f, p)} :: ListOf(u.f, p) == ListOf(Unfile(s.f, r), p);
    ReleaseDepsSame(s.g, s.f, Unfile(s.f, r), PinnedDeps(s.reqs[r]));
  }

  lemma {:induction false} StillFailed(g: Graph, f: Files, ds: seq<Id>, id: Id)
    requires id in g.nodes && g.nodes[id].failed
    ensures id in ReleaseDeps(g, f, ds).nodes ==> ReleaseDeps(g, f, ds).nodes[id].failed
    decreases ds
  {
    if ds == [] {
    } else {
      var h := ReleaseDep(g, f, ds[0]);
      if id in h.nodes { StillFailed(h, f, ds[1..], id); } else { GoneStays(h, f, ds[1..], id); }
    }
  }

  ghost predicate WaitersLive(s: State) {
    Distinct(ListOf(s.f, Work)) && forall r <- ListOf(s.f, Work) :: r in s.reqs
  }

  /**
   The waiters of a failed node are told in blocking order, if they care, and each is destroyed once.
   The node is never read after it is freed, for FailWaiters is defined, and no other list changes.
  */
  ghost predicate FailedAll(s: State, id: Id, t: State) {
    var w := ListOf(s.f, Work);
    && WaitersLive(s)
    && t.reqs == s.reqs - (set r | r in w)
    && t.destroyed == s.destroyed + w
    && t.failures == s.failures + Notified(s.reqs, w)
    && FailWaiters(s.g, s.f, id, WaiterDeps(s.reqs, w)) == Some(t.g)
    && (forall p: Place {:trigger ListOf(t.f, p)} :: p != Work ==> ListOf(t.f, p) == ListOf(s.f, p))
  }

  lemma FailTail(s: State, u: State, id: Id, t: State)
    requires FailedOne(s, u) && WaitersLive(s) && FailedAll(u, id, t) && id in s.g.nodes
    ensures FailedAll(s, id, t)
  {
    var w, v := ListOf(s.f, Work), ListOf(u.f, Work);
    assert v == w[1..];
    FailTailCalls(s.reqs, u.reqs, w);
    FailTailGraph(s, u, id, t);
    FailTailReqs(s.reqs, w);
    HeadThenRest(s.destroyed, w);
    Associate(s.failures, if s.reqs[w[0]].onFailure then [w[0]] else [], Notified(u.reqs, v));
  }

  lemma HeadThenRest(before: seq<Rid>, w: seq<Rid>)
    requires w != []
    ensures before + [w[0]] + w[1..] == before + w
  {}

  lemma Associate(a: seq<Rid>, b: seq<Rid>, c: seq<Rid>)
    ensures a + b + c == a + (b + c)
  {}

  lemma FailTailCalls(reqs: map<Rid, Request>, less: map<Rid, Request>, w: seq<Rid>)
    requires w != [] && Distinct(w) && (forall r <- w :: r in reqs) && less == reqs - {w[0]}
    ensures forall r <- w[1..] :: r in less
    ensures Notified(reqs, w) == (if reqs[w[0]].onFailure then [w[0]] else []) + Notified(less, w[1..])
    ensures WaiterDeps(reqs, w) == [PinnedDeps(reqs[w[0]])] + WaiterDeps(less, w[1..])
  {
    forall r <- w[1..] ensures r in less && less[r] == reqs[r] {
      var i :| 0 <= i < |w[1..]| && w[1..][i] == r;
      assert w[i + 1] == r;
    }
    SubsetAgree(reqs, less, w[1..]);
  }

  lemma FailTailGraph(s: State, u: State, id: Id, t: State)
    requires FailedOne(s, u) && id in s.g.nodes
    requires forall r <- ListOf(u.f, Work) :: r in u.reqs
    requires FailWaiters(u.g, u.f, id, WaiterDeps(u.reqs, ListOf(u.f, Work))) == Some(t.g)
    ensures FailWaiters(s.g, s.f, id,
                        [PinnedDeps(s.reqs[ListOf(s.f, Work)[0]])] + WaiterDeps(u.reqs, ListOf(u.f, Work)))
            == Some(t.g)
  {
    var q := WaiterDeps(u.reqs, ListOf(u.f, Work));
    assert SameBlocked(u.f, s.f);
    FailWaitersSame(u.g, u.f, s.f, id, q);
    assert ([PinnedDeps(s.reqs[ListOf(s.f, Work)[0]])] + q)[1..] == q;
  }

  lemma FailTailReqs(reqs: map<Rid, Request>, w: seq<Rid>)
    requires w != []
    ensures reqs - {w[0]} - (set x | x in w[1..]) == reqs - (set x | x in w)
  {
    assert (set x | x in w) == {w[0]} + set x | x in w[1..];
  }

  lemma FailNone(s: State, id: Id)
    requires ListOf(s.f, Work) == []
    ensures FailedAll(s, id, s.(mode := Running))
  {
    assert s.reqs == s.reqs - (set r | r in ListOf(s.f, Work));
  }

  /** The rest of publish(NULL) runs to its end. */
  lemma {:induction false} FailRest(s: State) returns (t: State)
    requires Inv(s) && s.mode.Publishing?
    requires ListOf(s.f, Work) != [] ==> s.mode.id in s.g.nodes && s.g.nodes[s.mode.id].failed
    ensures Run(s, PublishEvents(ListOf(s.f, Work)), t) && Inv(t) && t.mode == Running
    ensures FailedAll(s, s.mode.id, t)
    decreases |ListOf(s.f, Work)|
  {
    var w := ListOf(s.f, Work);
    WorkLive(s);
    if w == [] {
      t := s.(mode := Running);
      EventKeeps(s, PublishEnd);
      FailNone(s, s.mode.id);
      LastEvent(s, PublishEnd);
    } else {
      var r := w[0];
      NextWaiter(s);
      var u := FailOne(s, r);
      t := FailRest(u);
      FirstEvent(s, PublishNext(r), PublishEvents(w[1..]), t);
      FailTail(s, u, s.mode.id, t);
    }
  }

  lemma FailOne(s: State, r: Rid) returns (u: State)
    requires Inv(s) && s.mode.Publishing? && Enabled(s, PublishNext(r)) && s.f.place[r] == Work
    requires s.mode.id in s.g.nodes && s.g.nodes[s.mode.id].failed
    ensures u == Apply(s, PublishNext(r)) && Inv(u) && FailedOne(s, u)
    ensures ListOf(u.f, Work) != [] ==> u.mode.Publishing? && u.mode.id in u.g.nodes && u.g.nodes[u.mode.id].failed
  {
    u := Apply(s, PublishNext(r));
    EventKeeps(s, PublishNext(r));
    FailStep(s, r, s.mode.id);
    StillFailed(s.g, s.f, PinnedDeps(s.reqs[r]), s.mode.id);
    if ListOf(u.f, Work) != [] { NextWaiter(u); }
  }

  lemma LastEvent(s: State, e: Event)
    requires Enabled(s, e)
    ensures Run(s, [e], Apply(s, e))
  {
    assert [e][1..] == [];
  }

  lemma FirstEvent(s: State, e: Event, rest: seq<Event>, t: State)
    requires Enabled(s, e) && Run(Apply(s, e), rest, t)
    ensures Run(s, [e] + rest, t)
  {
    assert ([e] + rest)[1..] == rest;
  }

  // ----- waking

  ghost predicate WokenOne(s: State, u: State) {
    && ListOf(s.f, Work) != []
    && var r := ListOf(s.f, Work)[0];
    && u.mode == s.mode && u.reqs == s.reqs && u.g == s.g && u.destroyed == s.destroyed && u.failures == s.failures
    && forall p: Place {:trigger ListOf(u.f, p)} ::
         ListOf(u.f, p) == if p == Work then ListOf(s.f, Work)[1..]
                           else if p == Pending then [r] + ListOf(s.f, Pending)
                           else ListOf(s.f, p)
  }

  lemma WakeStep(s: State, r: Rid, id: Id)
    requires Listed(s.f) && Head(s, Work, r) && s.f.place[r] == Work && id in s.g.nodes && !s.g.nodes[id].failed
    ensures WokenOne(s, DoPublishNext(s, r, id))
  {
    var h := Unfile(s.f, r);
    WithoutHead(ListOf(s.f, Work));
    assert ListOf(h, Pending) == ListOf(s.f, Pending) && ListOf(h, Work) == ListOf(s.f, Work)[1..];
    FrontLists(h, r);
    assert forall p: Place {:trigger ListOf(h, p)} :: p != Work ==> ListOf(h, p) == ListOf(s.f, p);
  }

  lemma FrontLists(f: Files, r: Rid)
    ensures forall p: Place {:trigger ListOf(File(f, r, Pending, 0), p)} ::
      ListOf(File(f, r, Pending, 0), p) == if p == Pending then [r] + ListOf(f, Pending) else ListOf(f, p)
  {
    assert InsertAt(ListOf(f, Pending), 0, r) == [r] + ListOf(f, Pending);
  }

  /** The waiters of a published node go to the front of the pending list, the last one foremost. */
  ghost predicate WokenAll(s: State, t: State) {
    && t.reqs == s.reqs && t.g == s.g && t.destroyed == s.destroyed && t.failures == s.failures
    && ListOf(t.f, Pending) == Reverse(ListOf(s.f, Work)) + ListOf(s.f, Pending)
    && (forall p: Place {:trigger ListOf(t.f, p)} :: p != Work && p != Pending ==> ListOf(t.f, p) == ListOf(s.f, p))
  }

  lemma WakeTail(s: State, u: State, t: State)
    requires WokenOne(s, u) && WokenAll(u, t)
    ensures WokenAll(s, t)
  {
    var w := ListOf(s.f, Work);
    assert ListOf(u.f, Work) == w[1..] && ListOf(u.f, Pending) == [w[0]] + ListOf(s.f, Pending);
  }

  lemma {:induction false} WakeRest(s: State) returns (t: State)
    requires Inv(s) && s.mode.Publishing?
    requires ListOf(s.f, Work) != [] ==> s.mode.id in s.g.nodes && !s.g.nodes[s.mode.id].failed
    ensures Run(s, PublishEvents(ListOf(s.f, Work)), t) && Inv(t) && t.mode == Running
    ensures WokenAll(s, t)
    decreases |ListOf(s.f, Work)|
  {
    var w := ListOf(s.f, Work);
    if w == [] {
      t := s.(mode := Running);
      EventKeeps(s, PublishEnd);
      LastEvent(s, PublishEnd);
    } else {
      var r := w[0];
      NextWaiter(s);
      var u := WakeOne(s, r);
      t := WakeRest(u);
      FirstEvent(s, PublishNext(r), PublishEvents(w[1..]), t);
      WakeTail(s, u, t);
    }
  }

  lemma WakeOne(s: State, r: Rid) returns (u: State)
    requires Inv(s) && s.mode.Publishing? && Enabled(s, PublishNext(r)) && s.f.place[r] == Work
    requires s.mode.id in s.g.nodes && !s.g.nodes[s.mode.id].failed
    ensures u == Apply(s, PublishNext(r)) && Inv(u) && WokenOne(s, u)
  {
    u := Apply(s, PublishNext(r));
    EventKeeps(s, PublishNext(r));
    WakeStep(s, r, s.mode.id);
  }

  /** Destroying waiters leaves the published node with the payload, cleanup and failure it has. */
  lemma {:induction false} FailWaitersKeep(g: Graph, f: Files, id: Id, q: seq<seq<Id>>)
    requires id in g.nodes && FailWaiters(g, f, id, q).Some?
    ensures var h := FailWaiters(g, f, id, q).value;
      id in h.nodes ==> h.nodes[id] == g.nodes[id].(refcnt := h.nodes[id].refcnt)
    decreases q
  {
    if q == [] {
    } else {
      ReleaseTracks(g, f, q[0], id);
      if id in ReleaseDeps(g, f, q[0]).nodes {
        FailWaitersKeep(ReleaseDeps(g, f, q[0]), f, id, q[1..]);
      }
    }
  }

  // ----- the whole call

  /** The node carries this payload, and this is whether it comes with a cleanup. */
  predicate Carries(g: Graph, id: Id, payload: Payload, cleanup: bool) {
    && id in g.nodes && g.nodes[id].payload == Some(payload) && g.nodes[id].cleanup == cleanup
    && !g.nodes[id].failed
  }

  /** The payload that publishing to the node replaces, if it has to be cleaned up. */
  function Replaced(g: Graph, id: Id): multiset<Payload> {
    if id in g.nodes && g.nodes[id].cleanup && g.nodes[id].payload.Some? then multiset{g.nodes[id].payload.value}
    else multiset{}
  }

  lemma PublishStart(s: State, id: Id, payload: Option<Payload>, cleanup: bool)
    requires Inv(s) && s.mode.Running?
    ensures var u := Apply(s, Publish(id, payload, cleanup));
      && Inv(u) && u.mode == Publishing(id) && u.reqs == s.reqs && u.g == Store(s.g, id, payload, cleanup)
      && u.destroyed == s.destroyed && u.failures == s.failures
      && forall p: Place {:trigger ListOf(u.f, p)} ::
           ListOf(u.f, p) == if p == Work then ListOf(s.f, Blocked(id)) else if p == Blocked(id) then []
                             else ListOf(s.f, p)
  {
    EventKeeps(s, Publish(id, payload, cleanup));
    MoveListed(s.f, Blocked(id), Work);
  }

  /**
   publish(NULL) on a loop between two operations runs to its end and never reads the node after it
   is freed. It calls on_failure once for each waiter that has one, in blocking order, and destroys
   each waiter once. All that is left of them is gone: the counts of the final state are exact
   without them.
  */
  lemma PublishNullFailsWaiters(s: State, id: Id, cleanup: bool) returns (t: State)
    requires Reachable(s) && s.mode.Running?
    ensures var w := ListOf(s.f, Blocked(id));
      && (forall r <- w :: r in s.reqs)
      && Run(s, [Publish(id, None, cleanup)] + PublishEvents(w), t) && t.mode == Running
      && t.failures == s.failures + Notified(s.reqs, w)
      && t.destroyed == s.destroyed + w && Distinct(w)
      && t.reqs == s.reqs - (set r | r in w)
      && FailWaiters(Store(s.g, id, None, cleanup), Move(s.f, Blocked(id), Work), id, WaiterDeps(s.reqs, w))
         == Some(t.g)
    ensures Counted(t.g, Pins(t.reqs))
    ensures id in t.g.nodes ==> t.g.nodes[id].failed && t.g.nodes[id].payload == None
  {
    ReachableInv(s);
    var u := Stored(s, id, None, cleanup);
    t := FailRest(u);
    FirstEvent(s, Publish(id, None, cleanup), PublishEvents(ListOf(s.f, Blocked(id))), t);
    FailedWaiters(s, id, cleanup, u, t);
    FailWaitersKeep(u.g, u.f, id, WaiterDeps(s.reqs, ListOf(s.f, Blocked(id))));
    CountedInv(t);
  }

  lemma FailedWaiters(s: State, id: Id, cleanup: bool, u: State, t: State)
    requires u.reqs == s.reqs && u.g == Store(s.g, id, None, cleanup) && u.f == Move(s.f, Blocked(id), Work)
    requires u.destroyed == s.destroyed && u.failures == s.failures && ListOf(u.f, Work) == ListOf(s.f, Blocked(id))
    requires FailedAll(u, id, t)
    ensures var w := ListOf(s.f, Blocked(id));
      && (forall r <- w :: r in s.reqs) && Distinct(w)
      && t.failures == s.failures + Notified(s.reqs, w) && t.destroyed == s.destroyed + w
      && t.reqs == s.reqs - (set r | r in w)
      && FailWaiters(Store(s.g, id, None, cleanup), Move(s.f, Blocked(id), Work), id, WaiterDeps(s.reqs, w))
         == Some(t.g)
  {}

  lemma CountedInv(s: State)
    requires Inv(s)
    ensures Counted(s.g, Pins(s.reqs))
  {}

  /** Every node but `id` is as it was. */
  ghost predicate OthersSame(g: Graph, h: Graph, id: Id) {
    forall i: Id :: i != id ==> if i in g.nodes then i in h.nodes && h.nodes[i] == g.nodes[i] else i !in h.nodes
  }

  lemma StoreCarries(g: Graph, id: Id, payload: Payload, cleanup: bool)
    ensures var h := Store(g, id, Some(payload), cleanup);
      Carries(h, id, payload, cleanup) && h.cleaned == g.cleaned + Replaced(g, id) && OthersSame(g, h, id)
  {}

  /**
   Publishing a payload destroys nobody and puts every waiter back in the pending list. The node then
   carries that payload and that cleanup, what it carried before has been cleaned up, and no other
   node has changed.
  */
  lemma PublishWakesWaiters(s: State, id: Id, payload: Payload, cleanup: bool) returns (t: State)
    requires Reachable(s) && s.mode.Running?
    ensures var w := ListOf(s.f, Blocked(id));
      && Run(s, [Publish(id, Some(payload), cleanup)] + PublishEvents(w), t) && t.mode == Running
      && ListOf(t.f, Pending) == Reverse(w) + ListOf(s.f, Pending)
      && ListOf(t.f, Blocked(id)) == [] && Resolved(t.g, id)
      && t.reqs == s.reqs && t.destroyed == s.destroyed && t.failures == s.failures
    ensures Carries(t.g, id, payload, cleanup) && t.g.cleaned == s.g.cleaned + Replaced(s.g, id)
    ensures OthersSame(s.g, t.g, id)
  {
    t := WakeAll(s, id, payload, cleanup);
    StoreCarries(s.g, id, payload, cleanup);
  }

  lemma WakeAll(s: State, id: Id, payload: Payload, cleanup: bool) returns (t: State)
    requires Reachable(s) && s.mode.Running?
    ensures var w := ListOf(s.f, Blocked(id));
      && Run(s, [Publish(id, Some(payload), cleanup)] + PublishEvents(w), t) && t.mode == Running
      && ListOf(t.f, Pending) == Reverse(w) + ListOf(s.f, Pending)
      && ListOf(t.f, Blocked(id)) == [] && t.g == Store(s.g, id, Some(payload), cleanup)
      && t.reqs == s.reqs && t.destroyed == s.destroyed && t.failures == s.failures
  {
    ReachableInv(s);
    var u := Stored(s, id, Some(payload), cleanup);
    t := WakeFrom(u, id);
    FirstEvent(s, Publish(id, Some(payload), cleanup), PublishEvents(ListOf(s.f, Blocked(id))), t);
  }

  /** The state in which the loop of publish starts. */
  lemma Stored(s: State, id: Id, payload: Option<Payload>, cleanup: bool) returns (u: State)
    requires Inv(s) && s.mode.Running?
    ensures u == Apply(s, Publish(id, payload, cleanup)) && Inv(u) && u.mode == Publishing(id)
    ensures u.reqs == s.reqs && u.destroyed == s.destroyed && u.failures == s.failures
    ensures u.g == Store(s.g, id, payload, cleanup) && u.f == Move(s.f, Blocked(id), Work)
    ensures id in u.g.nodes && u.g.nodes[id].failed == (payload == None) && Resolved(u.g, id)
    ensures ListOf(u.f, Work) == ListOf(s.f, Blocked(id)) && ListOf(u.f, Blocked(id)) == []
    ensures ListOf(u.f, Pending) == ListOf(s.f, Pending)
  {
    u := Apply(s, Publish(id, payload, cleanup));
    PublishStart(s, id, payload, cleanup);
    StoredNode(s.g, id, payload, cleanup);
  }

  lemma StoredNode(g: Graph, id: Id, payload: Option<Payload>, cleanup: bool)
    ensures var h := Store(g, id, payload, cleanup);
      id in h.nodes && h.nodes[id].failed == (payload == None) && Resolved(h, id)
  {}

  lemma WakeFrom(s: State, id: Id) returns (t: State)
    requires Inv(s) && s.mode == Publishing(id) && id in s.g.nodes && !s.g.nodes[id].failed
    ensures Run(s, PublishEvents(ListOf(s.f, Work)), t) && t.mode == Running
    ensures t.reqs == s.reqs && t.g == s.g && t.destroyed == s.destroyed && t.failures == s.failures
    ensures ListOf(t.f, Pending) == Reverse(ListOf(s.f, Work)) + ListOf(s.f, Pending)
    ensures ListOf(t.f, Blocked(id)) == ListOf(s.f, Blocked(id))
  {
    t := WakeRest(s);
  }
}
