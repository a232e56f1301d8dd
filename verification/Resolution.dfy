/** Once published or failed, a node stays resolved for as long as anyone depends on it. */
module Resolution {
  import opened Sequences
  import opened LoopState
  import opened LoopSteps
  import opened Counting
  import opened Waiting
  import opened LoopInvariant
  import opened LoopRuns

  /** The nodes of `h` that `g` has too are resolved if they were. */
  ghost predicate Persists(g: Graph, h: Graph) {
    forall id <- h.nodes :: Resolved(g, id) ==> Resolved(h, id)
  }

  lemma ReleaseDepPersists(g: Graph, f: Files, d: Id)
    ensures Persists(g, ReleaseDep(g, f, d)) && ReleaseDep(g, f, d).nodes.Keys <= g.nodes.Keys
  {}

  lemma {:induction false} ReleaseDepsPersists(g: Graph, f: Files, ds: seq<Id>)
    ensures Persists(g, ReleaseDeps(g, f, ds)) && ReleaseDeps(g, f, ds).nodes.Keys <= g.nodes.Keys
    decreases ds
  {
    if ds == [] {
    } else {
      ReleaseDepPersists(g, f, ds[0]);
      ReleaseDepsPersists(ReleaseDep(g, f, ds[0]), f, ds[1..]);
    }
  }

  lemma {:induction false} RetainDepsPersists(g: Graph, ds: seq<Id>)
    ensures Persists(g, RetainDeps(g, ds)) && g.nodes.Keys <= RetainDeps(g, ds).nodes.Keys
    decreases ds
  {
    if ds == [] {
    } else {
      RetainDepsPersists(RetainDep(g, ds[0]), ds[1..]);
    }
  }

  lemma DestroyPersists(s: State, r: Rid)
    requires r in s.reqs
    ensures Persists(s.g, Destroy(s, r).g)
  {
    ReleaseDepsPersists(s.g, s.f, PinnedDeps(s.reqs[r]));
  }

  lemma StartPersists(s: State, r: Rid, l: Launch)
    requires r in s.reqs
    ensures Persists(s.g, Start(s, r, l).g)
  {
    if !Refused(s.reqs[r], l) && !l.prepared { DestroyPersists(Detach(s, r), r); }
  }

  /** Pinning first and destroying later cannot turn a resolved node into a fresh placeholder. */
  lemma PersistsThrough(g: Graph, h: Graph, k: Graph)
    requires Persists(g, h) && g.nodes.Keys <= h.nodes.Keys && Persists(h, k)
    ensures Persists(g, k)
  {
    forall id <- k.nodes | Resolved(g, id) ensures Resolved(k, id) {
      assert id in h.nodes;
    }
  }

  lemma AdmitPersists(s: State, r: Rid, poll: nat, now: Time, launch: Launch)
    requires r in s.reqs && r in s.hist
    ensures Persists(s.g, Admit(s, r, poll, now, launch).g)
  {
    if FirstUnmet(s.g, s.reqs[r].deps) == None && Ready(s, r, poll, now) { StartPersists(s, r, launch); }
  }

  lemma TakeOnePersists(s: State, r: Rid, poll: nat, now: Time, launch: Launch)
    requires r in s.f.place && r in s.reqs && r in s.hist
    ensures Persists(s.g, DoTakeOne(s, r, poll, now, launch).g)
  {
    var u := Taken(s, r);
    if s.reqs[r].isCancelled {
      DestroyPersists(u, r);
    } else {
      RetainDepsPersists(u.g, s.reqs[r].deps);
      AdmitPersists(Retain(u, r), r, poll, now, launch);
      PersistsThrough(s.g, Retain(u, r).g, DoTakeOne(s, r, poll, now, launch).g);
    }
  }

  lemma ScanPersists(s: State, e: Event)
    requires Enabled(s, e) && e.Scan?
    ensures Persists(s.g, Apply(s, e).g)
  {
    StartPersists(Take(s, e.r), e.r, e.launch);
  }

  lemma CompletePersists(s: State, r: Rid, c: Completion)
    requires r in s.reqs && r in s.f.place
    ensures Persists(s.g, DoComplete(s, r, c).g)
  {
    DestroyPersists(SetReq(Take(s, r), r, Completed(s.reqs[r], c)), r);
  }

  lemma DestroyingPersists(s: State, e: Event)
    requires Enabled(s, e) && (e.PublishNext? || e.DropCancelled? || e.CloseNext? || e.CloseWaiter?)
    ensures Persists(s.g, Apply(s, e).g)
  {
    match e
    case PublishNext(r) => DestroyPersists(Abort(Take(s, r), r), r);
    case DropCancelled(r) => DestroyPersists(Take(s, r).(cancelWork := s.cancelWork[1..]), r);
    case CloseNext(p, r) => DestroyPersists(Take(s, r), r);
    case CloseWaiter(r) => DestroyPersists(Abort(Take(s, r), r), r);
  }

  lemma EventPersists(s: State, e: Event)
    requires Enabled(s, e)
    ensures Persists(s.g, Apply(s, e).g)
  {
    if e.PublishNext? || e.DropCancelled? || e.CloseNext? || e.CloseWaiter? {
      DestroyingPersists(s, e);
    } else if e.TakeOne? {
      TakeOnePersists(s, e.r, e.poll, e.now, e.launch);
    } else if e.Scan? {
      ScanPersists(s, e);
    } else if e.Complete? {
      CompletePersists(s, e.r, e.c);
    }
  }

  /** Along the whole run some live, retained request names `id`, and teardown does not begin. */
  ghost predicate NamedThroughout(s: State, events: seq<Event>, id: Id)
    decreases events
  {
    && Open(s.mode) && id in Pins(s.reqs)
    && (events != [] ==> Enabled(s, events[0]) && NamedThroughout(Apply(s, events[0]), events[1..], id))
  }

  lemma PinnedThere(s: State, id: Id)
    requires Inv(s) && Open(s.mode) && id in Pins(s.reqs)
    ensures id in s.g.nodes
  {}

  /** Over any run, a published or failed node is still there and resolved as long as requests go on naming it. */
  lemma PublishedStaysResolved(s: State, events: seq<Event>, t: State, id: Id)
    requires Reachable(s) && Run(s, events, t) && NamedThroughout(s, events, id) && Resolved(s.g, id)
    ensures Resolved(t.g, id)
  {
    ReachableInv(s);
    StaysResolved(s, events, t, id);
  }

  lemma {:induction false} StaysResolved(s: State, events: seq<Event>, t: State, id: Id)
    requires Inv(s) && Run(s, events, t) && NamedThroughout(s, events, id) && Resolved(s.g, id)
    ensures Resolved(t.g, id)
    decreases events
  {
    if events == [] {
    } else {
      var u := Apply(s, events[0]);
      EventKeeps(s, events[0]);
      EventPersists(s, events[0]);
      PinnedThere(u, id);
      StaysResolved(u, events[1..], t, id);
    }
  }

  /** In every reachable state a resolved node either carries a payload or has failed, never both. */
  lemma PayloadXorFailed(s: State, id: Id)
    requires Reachable(s) && Resolved(s.g, id)
    ensures s.g.nodes[id].payload.Some? <==> !s.g.nodes[id].failed
  {
    ReachableInv(s);
  }
}
