/**
 What happens when the owner of a node drops its last reference while auto-release is on. The loop
 then has nothing left to tell the owner's reference from a waiter's, and erases a node that a
 request still holds. This module says exactly when, and shows a run that gets there.
*/
module OwnerRelease {
  import opened Sequences
  import opened LoopState
  import opened LoopSteps
  import opened Filing
  import opened Counting
  import opened LoopInvariant
  import opened LoopRuns
  import opened PublishSafety
  import opened PublishOutcome
  import opened Teardown
  import opened LoopTheorems

  /** The counts are exact and no caller has dropped more than it held; an owner may be gone. */
  ghost predicate Exact(g: Graph, m: multiset<Id>) {
    && g.client.Keys <= g.nodes.Keys
    && forall id <- g.nodes :: g.nodes[id].refcnt == Client(g, id) + m[id] && Client(g, id) >= 0
  }

  lemma ReachableExact(s: State)
    requires Reachable(s)
    ensures Exact(s.g, Pins(s.reqs))
  {
    ReachableInv(s);
  }

  /** Dropping a reference that a caller holds, whoever the caller is. */
  lemma DropExact(g: Graph, id: Id, m: multiset<Id>)
    requires Exact(g, m) && (id in g.nodes ==> Client(g, id) >= 1)
    ensures Exact(Release(g, id), m)
    ensures id in m && id in g.nodes ==> id in Release(g, id).nodes
  {}

  /**
   Handing back the entries `ds` erases a node that someone still pins exactly when it auto-releases,
   nobody is blocked on it, no caller holds it and a single entry is left.
  */
  lemma ErasesPinnedIff(g: Graph, f: Files, ds: seq<Id>, m: multiset<Id>, id: Id)
    requires Exact(g, m + multiset(ds)) && id in g.nodes && id in ds
    ensures id in m && id !in ReleaseDeps(g, f, ds).nodes <==>
      g.nodes[id].autoRelease && ListOf(f, Blocked(id)) == [] && Client(g, id) == 0 && m[id] == 1
  {
    ReleaseTracks(g, f, ds, id);
    assert (m + multiset(ds))[id] == m[id] + Times(ds, id);
  }

  /** The same of destroying a request, in terms of the state before. */
  lemma DestroyErasesPinnedIff(s: State, r: Rid, id: Id)
    requires Exact(s.g, Pins(s.reqs)) && r in s.reqs && id in s.g.nodes && id in PinnedDeps(s.reqs[r])
    ensures var t := Destroy(s, r);
      t.reqs == s.reqs - {r} &&
      (id in Pins(t.reqs) && id !in t.g.nodes <==>
        && s.g.nodes[id].autoRelease && ListOf(s.f, Blocked(id)) == []
        && Client(s.g, id) == 0 && Pins(s.reqs - {r})[id] == 1)
  {
    var ds, rest := PinnedDeps(s.reqs[r]), Pins(s.reqs - {r});
    PinsRemove(s.reqs, r);
    assert rest + multiset(ds) == Pins(s.reqs);
    ErasesPinnedIff(s.g, s.f, ds, rest, id);
    DestroyedParts(s, r);
  }

  lemma DestroyedParts(s: State, r: Rid)
    requires r in s.reqs
    ensures Destroy(s, r).reqs == s.reqs - {r}
    ensures Destroy(s, r).g == ReleaseDeps(s.g, s.f, PinnedDeps(s.reqs[r]))
  {}

  /**
   What an owner can check before it drops its last reference on an auto-releasing node: destroying
   `r` afterwards takes the node from another request exactly when nobody is blocked on the node and
   the other requests name it once between them.
  */
  lemma OwnerDropHurtsIff(s: State, r: Rid, id: Id)
    requires Reachable(s) && r in s.reqs && id in s.g.nodes && id in PinnedDeps(s.reqs[r])
    requires s.g.nodes[id].autoRelease && Client(s.g, id) == 1
    ensures var u := s.(g := Release(s.g, id));
      (id in Pins(Destroy(u, r).reqs) && id !in Destroy(u, r).g.nodes) <==>
        ListOf(s.f, Blocked(id)) == [] && Pins(s.reqs - {r})[id] == 1
  {
    var u := s.(g := Release(s.g, id));
    ReachableExact(s);
    PinsHold(s.reqs, r, id);
    DropExact(s.g, id, Pins(s.reqs));
    assert u.g.nodes[id].autoRelease && Client(u.g, id) == 0;
    DestroyErasesPinnedIff(u, r, id);
  }

  // ----- a registrant that owns nothing

  /**
   Publishing, which is also what register_async comes to, gives the caller a reference exactly if
   nobody holds or pins the node yet.
  */
  lemma PublisherOwnsIff(s: State, id: Id, payload: Option<Payload>, cleanup: bool)
    requires Reachable(s)
    ensures var g := Store(s.g, id, payload, cleanup);
      && (Client(g, id) == Client(s.g, id) + 1 <==>
            id !in s.g.nodes || (Client(s.g, id) == 0 && id !in Pins(s.reqs)))
      && (Client(g, id) == Client(s.g, id) || Client(g, id) == Client(s.g, id) + 1)
  {
    ReachableExact(s);
  }

  /** Releasing what one was given no reference to takes the node from a request exactly if a single entry is left. */
  lemma UnownedReleaseIff(s: State, id: Id)
    requires Reachable(s) && id in s.g.nodes && Client(s.g, id) == 0
    ensures id in Pins(s.reqs) && id !in Release(s.g, id).nodes <==> Pins(s.reqs)[id] == 1
  {
    ReachableExact(s);
  }

  // ----- a run that gets there

  /** A request that depends on one id and asks for nothing else; all of a new request's defaults. */
  function Plain(id: Id): Request {
    Request([id], false, false, false, NoPolicy, 0, 0, false, false, false, false, 0, 0, 0)
  }

  const NO_LAUNCH := Launch(0, false, 0, 0)

  /** Nothing is pending and no cancel is due. */
  ghost predicate Quiet(s: State) {
    Reachable(s) && s.mode == Running && ListOf(s.f, Pending) == [] && s.cancelled == []
  }

  /** An owner declares a node and leaves its release to the loop. */
  lemma Owned(id: Id) returns (s: State)
    ensures Quiet(s) && s.reqs == map[] && s.submitted == {} && ListOf(s.f, Blocked(id)) == []
    ensures s.g == Graph(map[id := Node(None, false, 1, false, true)], map[id := 1], multiset{}, multiset{})
  {
    var s0 := Initial(0);
    assert Run(s0, [], s0);
    ReachableStep(s0, Declare(id));
    var s1 := Apply(s0, Declare(id));
    ReachableStep(s1, SetAutoRelease(id, true));
    s := Apply(s1, SetAutoRelease(id, true));
  }

  /** A request submitted and blocked on a node it depends on. */
  lemma BlockFresh(s: State, r: Rid, id: Id) returns (t: State)
    requires Quiet(s) && r != 0 && r !in s.submitted && !Resolved(s.g, id)
    ensures Quiet(t) && t.submitted == s.submitted + {r} && r in t.reqs
    ensures t.reqs == s.reqs[r := FreshRequest(Plain(id)).(isPending := false, retained := true)]
    ensures t.g == RetainDep(s.g, id)
    ensures ListOf(t.f, Blocked(id)) == ListOf(s.f, Blocked(id)) + [r]
  {
    var q := Plain(id);
    var u := Submitted(s, r, q, id);
    var v := Detached(u, r, id);
    t := DrainedOne(v, r, id);
    Overwritten(s.reqs, r, FreshRequest(q), t.reqs[r]);
  }

  lemma Overwritten(reqs: map<Rid, Request>, r: Rid, p: Request, q: Request)
    ensures reqs[r := p][r := q] == reqs[r := q]
  {}

  lemma DrainedOne(s: State, r: Rid, id: Id) returns (t: State)
    requires Reachable(s) && WaitingAlone(s, r) && s.reqs[r] == FreshRequest(Plain(id))
    requires !Resolved(s.g, id)
    ensures Quiet(t) && t.submitted == s.submitted
    ensures t.reqs == s.reqs[r := FreshRequest(Plain(id)).(isPending := false, retained := true)]
    ensures t.g == RetainDep(s.g, id)
    ensures ListOf(t.f, Blocked(id)) == ListOf(s.f, Blocked(id)) + [r]
  {
    var e := TakeOne(r, 0, 0, NO_LAUNCH);
    BlockedOne(s, r, id);
    ReachableStep(s, e);
    var u := Apply(s, e);
    ReachableStep(u, DrainEnd);
    t := Apply(u, DrainEnd);
  }

  /** The snapshot being drained holds `r` alone. */
  ghost predicate WaitingAlone(s: State, r: Rid) {
    && s.mode == Draining && s.cancelWork == [] && s.cancelled == []
    && ListOf(s.f, Work) == [r] && ListOf(s.f, Pending) == []
    && r in s.reqs && r in s.hist && r in s.f.place && s.f.place[r] == Work
  }

  lemma Submitted(s: State, r: Rid, q: Request, id: Id) returns (u: State)
    requires Quiet(s) && r != 0 && r !in s.submitted
    ensures u == Apply(s, Submit(r, q)) && Reachable(u) && u.mode == Running && u.cancelled == [] && u.cancelWork == []
    ensures u.reqs == s.reqs[r := FreshRequest(q)] && u.g == s.g && u.submitted == s.submitted + {r}
    ensures r in u.hist && r in u.f.place && ListOf(u.f, Pending) == [r] && ListOf(u.f, Work) == []
    ensures ListOf(u.f, Blocked(id)) == ListOf(s.f, Blocked(id))
    ensures u.maxConcurrent == s.maxConcurrent && ListOf(u.f, Queued) == ListOf(s.f, Queued)
    ensures ListOf(u.f, RateLimited) == ListOf(s.f, RateLimited)
  {
    ReachableInv(s);
    ReachableStep(s, Submit(r, q));
    u := Apply(s, Submit(r, q));
  }

  lemma Detached(s: State, r: Rid, id: Id) returns (t: State)
    requires Reachable(s) && s.mode == Running && s.cancelled == [] && s.cancelWork == []
    requires ListOf(s.f, Pending) == [r] && ListOf(s.f, Work) == [] && r in s.reqs && r in s.hist
    ensures Reachable(t) && WaitingAlone(t, r) && t.reqs == s.reqs && t.g == s.g && t.submitted == s.submitted
    ensures ListOf(t.f, Blocked(id)) == ListOf(s.f, Blocked(id))
    ensures t.maxConcurrent == s.maxConcurrent && ListOf(t.f, Queued) == ListOf(s.f, Queued)
    ensures ListOf(t.f, RateLimited) == ListOf(s.f, RateLimited)
  {
    ReachableStep(s, TakeLists);
    t := Apply(s, TakeLists);
    PendingPlace(s, r);
  }

  lemma PendingPlace(s: State, r: Rid)
    requires Reachable(s) && r in ListOf(s.f, Pending)
    ensures r in s.f.place && s.f.place[r] == Pending
  {
    ReachableInv(s);
  }

  lemma BlockedOne(s: State, r: Rid, id: Id)
    requires WaitingAlone(s, r) && s.reqs[r] == FreshRequest(Plain(id))
    requires !Resolved(s.g, id)
    ensures var e := TakeOne(r, 0, 0, NO_LAUNCH);
      && Enabled(s, e)
      && var t := Apply(s, e);
      && t.mode == Draining && t.cancelWork == [] && t.cancelled == [] && t.submitted == s.submitted
      && ListOf(t.f, Work) == [] && ListOf(t.f, Pending) == []
      && t.reqs == s.reqs[r := FreshRequest(Plain(id)).(isPending := false, retained := true)]
      && t.g == RetainDep(s.g, id)
      && ListOf(t.f, Blocked(id)) == ListOf(s.f, Blocked(id)) + [r]
  {
    var u := Taken(s, r);
    var v := Retain(u, r);
    assert [id][1..] == [];
    assert RetainDeps(s.g, [id]) == RetainDep(s.g, id);
    assert v.reqs[r].deps == [id] && FirstUnmet(v.g, [id]) == Some(id);
    var l := ListOf(v.f, Blocked(id));
    assert InsertAt(l, |l|, r) == l + [r];
  }

  /** One request waits on an auto-releasing node whose owner alone holds it besides. */
  lemma OneWaiter() returns (s: State)
    ensures Quiet(s) && ListOf(s.f, Blocked(7)) == [1] && s.submitted == {1}
    ensures s.reqs == map[1 := FreshRequest(Plain(7)).(isPending := false, retained := true)]
    ensures s.g == Graph(map[7 := Node(None, false, 2, false, true)], map[7 := 1], multiset{}, multiset{})
  {
    var o := Owned(7);
    s := BlockFresh(o, 1, 7);
  }

  /** A run of calls that keep to what the callers hold can end in a teardown that reads a freed node. */
  lemma TeardownFaults()
    ensures exists s: State, id: Id :: Reachable(s) && TeardownHurts(s, id)
  {
    var s := OneWaiter();
    WaitsThere(s);
    OnlyOwnerHolds(s);
    var events, t := TeardownCompletes(s);
  }

  lemma WaitsThere(s: State)
    requires Reachable(s) && ListOf(s.f, Blocked(7)) == [1]
    ensures 1 in s.f.place && s.f.place[1] == Blocked(7)
  {
    ReachableInv(s);
    assert 1 in ListOf(s.f, Blocked(7));
  }

  lemma OnlyOwnerHolds(s: State)
    requires ListOf(s.f, Blocked(7)) == [1] && 1 in s.f.place && s.f.place[1] == Blocked(7) && s.reqs.Keys == {1}
    requires 7 in s.g.nodes && s.g.nodes[7].autoRelease && Client(s.g, 7) == 1
    ensures !CloseSafe(s)
  {
    assert !PinsLater(s, 1, 7);
    assert !Kept(s, 7);
  }

  /** The loop returns while a request waits. */
  lemma ExitsWithWaiter()
    ensures exists s: State :: Reachable(s) && s.mode == Running && MayExit(s) && s.reqs != map[]
  {
    var s := OneWaiter();
    WaitsThere(s);
    OnlyBlocked(s);
  }

  lemma OnlyBlocked(s: State)
    requires Reachable(s) && s.reqs.Keys == {1} && 1 in s.f.place && s.f.place[1] == Blocked(7)
    ensures MayExit(s)
  {
    ReachableInv(s);
    forall p: Place | !p.Blocked? ensures ListOf(s.f, p) == [] { NotThere(s, p); }
  }

  lemma NotThere(s: State, p: Place)
    requires Filed(s) && s.reqs.Keys == {1} && s.f.place[1] != p
    ensures ListOf(s.f, p) == []
  {
    if ListOf(s.f, p) != [] { PlaceOf(s, p, ListOf(s.f, p)[0]); }
  }

  /** A request pins an id nobody has registered yet; the registrant comes second and owns nothing. */
  ghost predicate RegistrantHurts(s: State, id: Id) {
    && Reachable(s) && s.mode == Running && id in s.g.nodes && s.g.nodes[id].payload.Some?
    && Client(s.g, id) == 0 && id in Pins(s.reqs) && id !in Release(s.g, id).nodes
  }

  /** It happens: the registrant's release of what it registered takes the node from the request. */
  lemma LateRegistrantErasesPinned()
    ensures exists s: State, id: Id :: RegistrantHurts(s, id)
  {
    var s0 := Initial(0);
    assert Run(s0, [], s0);
    var s := BlockFresh(s0, 1, 7);
    assert s.g == Graph(map[7 := Node(None, false, 1, false, false)], map[], multiset{}, multiset{});
    var t := Woken(s);
    PinsAdd(map[], 1, t.reqs[1]);
    assert map[][1 := t.reqs[1]] == t.reqs;
    UnownedReleaseIff(t, 7);
    assert RegistrantHurts(t, 7);
  }

  /** Two requests got their node, and hold it besides its owner. */
  lemma TwoHolders() returns (s: State)
    ensures Reachable(s) && s.mode == Running && ListOf(s.f, Blocked(7)) == []
    ensures s.reqs == map[1 := FreshRequest(Plain(7)).(isPending := false, retained := true),
                          2 := FreshRequest(Plain(7)).(isPending := false, retained := true)]
    ensures s.g == Graph(map[7 := Node(Some(5), false, 3, false, true)], map[7 := 1], multiset{}, multiset{})
  {
    var o := OneWaiter();
    var p := BlockFresh(o, 2, 7);
    s := Woken(p);
    assert p.g == Graph(map[7 := Node(None, false, 3, false, true)], map[7 := 1], multiset{}, multiset{});
  }

  lemma Woken(s: State) returns (t: State)
    requires Quiet(s) && 7 in s.g.nodes && s.g.nodes[7].refcnt > 0
    ensures Reachable(t) && t.mode == Running && t.reqs == s.reqs && t.g == Store(s.g, 7, Some(5), false)
    ensures ListOf(t.f, Blocked(7)) == [] && ListOf(t.f, Pending) == Reverse(ListOf(s.f, Blocked(7)))
  {
    ReachableInv(s);
    var u := Stored(s, 7, Some(5), false);
    t := WakeFrom(u, 7);
    ReachableFrom(s, Publish(7, Some(5), false), PublishEvents(ListOf(u.f, Work)), t);
  }

  lemma ReachableFrom(s: State, e: Event, rest: seq<Event>, t: State)
    requires Reachable(s) && Enabled(s, e) && Run(Apply(s, e), rest, t)
    ensures Reachable(t)
  {
    FirstEvent(s, e, rest, t);
    ReachableRun(s, [e] + rest, t);
  }

  /** Once the owner of `id` has dropped its reference, destroying `r` takes the node from `x`. */
  ghost predicate OwnerDropHurts(s: State, r: Rid, x: Rid, id: Id) {
    && Reachable(s) && s.mode == Running && r in s.reqs && x in s.reqs && r != x
    && id in s.g.nodes && Client(s.g, id) == 1
    && var t := Destroy(s.(g := Release(s.g, id)), r);
    && x in t.reqs && id in PinnedDeps(t.reqs[x]) && id !in t.g.nodes
  }

  /** So it is false that no retained node is erased as long as callers release only what they hold. */
  lemma OwnerDropErasesPinned()
    ensures exists s: State, r: Rid, x: Rid, id: Id :: OwnerDropHurts(s, r, x, id)
  {
    var s := TwoHolders();
    assert s.reqs - {1} == map[2 := s.reqs[2]];
    PinsAdd(map[], 2, s.reqs[2]);
    assert map[][2 := s.reqs[2]] == s.reqs - {1};
    OwnerDropHurtsIff(s, 1, 7);
    var u := s.(g := Release(s.g, 7));
    DestroyedParts(u, 1);
    PinsHold(Destroy(u, 1).reqs, 2, 7);
    assert OwnerDropHurts(s, 1, 2, 7);
  }
}
