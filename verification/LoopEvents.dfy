/** Every event keeps the invariant of the loop. */
module LoopEvents {
  import opened Sequences
  import opened LoopState
  import opened LoopSteps
  import opened Filing
  import opened Counting
  import opened Waiting
  import opened LoopInvariant
  import PublishSafety

  /** The detached lists, the cancelled lists and the mode are as before. */
  ghost predicate SameModes(s: State, t: State) {
    && t.mode == s.mode && t.cancelled == s.cancelled && t.cancelWork == s.cancelWork
    && ListOf(t.f, Work) == ListOf(s.f, Work) && ListOf(t.f, Root) == ListOf(s.f, Root)
  }

  lemma SubmitFiled(s: State, r: Rid, q: Request)
    requires Filed(s) && r != 0 && r !in s.submitted
    ensures Filed(DoSubmit(s, r, q))
  {
    var p := FreshRequest(q);
    ArriveFiled(s, r, p);
    PutFiled(Arrive(s, r, p), r, Pending, 0);
  }

  lemma SubmitShape(s: State, r: Rid, q: Request)
    requires Listed(s.f) && NoHand(s) && r !in s.f.place
    ensures NoHand(DoSubmit(s, r, q)) && SameModes(s, DoSubmit(s, r, q))
  {
    ArriveListed(s.f, r);
    FileListed(s.f.(place := s.f.place[r := Hand]), r, Pending, 0);
  }

  lemma SubmitTracked(s: State, r: Rid, q: Request)
    requires Tracked(s, true) && r !in s.reqs
    ensures Tracked(DoSubmit(s, r, q), true)
  {
    var p := FreshRequest(q);
    ArriveTracked(s, r, p, true);
    PutTracked(Arrive(s, r, p), r, Pending, 0, true);
  }

  lemma CancelKeeps(s: State, r: Rid)
    requires Sound(s, true) && NoHand(s) && r in s.reqs && !s.reqs[r].isCancelled
    requires s.reqs[r].isPending || s.f.place[r] in {Queued, Inactive, Refresh}
    ensures Sound(DoCancel(s, r), true) && NoHand(DoCancel(s, r))
  {
    CancelFiled(s, r);
    SetTracked(s, r, s.reqs[r].(isCancelled := true), true);
  }

  /** Filing looks at no node, no mode and no log. */
  lemma FiledFrame(s: State, t: State)
    requires Filed(s) && t.f == s.f && t.reqs == s.reqs && t.hist.Keys == s.hist.Keys
    requires t.cancelled == s.cancelled && t.cancelWork == s.cancelWork && t.maxConcurrent == s.maxConcurrent
    requires t.numMulti == s.numMulti && t.leaked == s.leaked
    requires t.destroyed == s.destroyed && t.submitted == s.submitted && (Open(t.mode) ==> Open(s.mode))
    ensures Filed(t)
  {}

  lemma TrackedFrame(s: State, t: State, open: bool)
    requires Tracked(s, open) && t.g == s.g && t.f == s.f && t.reqs == s.reqs && t.hist == s.hist
    ensures Tracked(t, open)
  {}

  lemma GraphFiled(s: State, h: Graph)
    requires Filed(s)
    ensures Filed(s.(g := h))
  {}

  /** The calls that only touch the resource map. */
  lemma ResourceKeeps(s: State, id: Id, enable: bool)
    requires Sound(s, true)
    ensures Sound(s.(g := Addref(s.g, id)), true)
    ensures (enable ==> Client(s.g, id) >= 1) ==> Sound(s.(g := SetAuto(s.g, id, enable)), true)
    ensures (id in s.g.nodes ==> Client(s.g, id) >= (if s.g.nodes[id].autoRelease then 2 else 1))
            ==> Sound(s.(g := Release(s.g, id)), true)
  {
    GraphFiled(s, Addref(s.g, id));
    AddrefTracked(s, id);
    if enable ==> Client(s.g, id) >= 1 {
      GraphFiled(s, SetAuto(s.g, id, enable));
      SetAutoTracked(s, id, enable);
    }
    if id in s.g.nodes ==> Client(s.g, id) >= (if s.g.nodes[id].autoRelease then 2 else 1) {
      GraphFiled(s, Release(s.g, id));
      ReleaseTracked(s, id);
    }
  }

  lemma PublishFiled(s: State, id: Id, payload: Option<Payload>, cleanup: bool)
    requires Filed(s) && NoHand(s) && ListOf(s.f, Work) == [] && Open(s.mode)
    ensures var t := DoPublish(s, id, payload, cleanup);
      && Filed(t) && NoHand(t)
      && ListOf(t.f, Work) == ListOf(s.f, Blocked(id)) && ListOf(t.f, Root) == ListOf(s.f, Root)
  {
    MoveFiled(s, Blocked(id), Work);
    MoveListed(s.f, Blocked(id), Work);
    var t := DoPublish(s, id, payload, cleanup);
    FiledFrame(s.(f := t.f), t);
  }

  lemma PublishTracked(s: State, id: Id, payload: Option<Payload>, cleanup: bool)
    requires Tracked(s, true)
    ensures Tracked(DoPublish(s, id, payload, cleanup), true)
  {
    StoreTracked(s, id, payload, cleanup);
    var t := DoPublish(s, id, payload, cleanup);
    TrackedFrame(s.(g := t.g, f := t.f), t, true);
  }

  lemma WaitersMode(s: State, id: Id)
    requires Sound(s, true)
    ensures forall r <- ListOf(s.f, Blocked(id)) ::
      r in s.reqs && r in s.hist && id in s.hist[r] && !s.reqs[r].isPending
  {
    forall r <- ListOf(s.f, Blocked(id))
      ensures r in s.reqs && r in s.hist && id in s.hist[r] && !s.reqs[r].isPending
    {
      PlaceOf(s, Blocked(id), r);
      assert Waits(s.g, s.reqs[r], Blocked(id), s.hist[r], true);
    }
  }

  /** The waiter that publish handles next is live, pins the node, and is in no cancelled list. */
  lemma WaiterFacts(s: State, r: Rid, id: Id)
    requires Sound(s, true) && r in s.reqs && s.f.place[r] == Work && !s.reqs[r].isPending && id in s.hist[r]
    ensures id in PinnedDeps(s.reqs[r]) && id in s.g.nodes && Resolved(s.g, id)
    ensures r !in s.cancelWork + s.cancelled && !s.reqs[r].isCancelled
  {
    assert Waits(s.g, s.reqs[r], Work, s.hist[r], true);
  }

  lemma WithoutHead(l: seq<Rid>)
    requires l != []
    ensures Without(l, l[0]) == l[1..]
  {}

  lemma AbortSound(s: State, r: Rid, open: bool)
    requires Sound(s, open) && r in s.reqs
    ensures Sound(Abort(s, r), open)
  {}

  lemma FailWaiterKeeps(s: State, r: Rid, open: bool)
    requires Sound(s, open) && OnlyHand(s, r) && r in s.reqs && s.f.place[r] == Hand
    requires r !in s.cancelWork + s.cancelled
    ensures var t := Destroy(Abort(s, r), r);
      && Sound(t, open) && NoHand(t) && t.reqs == s.reqs - {r} && Shrunk(s.g, t.g, Pins(t.reqs))
      && forall p: Place {:trigger ListOf(t.f, p)} :: ListOf(t.f, p) == ListOf(s.f, p)
  {
    AbortSound(s, r, open);
    DestroySound(Abort(s, r), r, open);
    DestroyedReqs(Abort(s, r), r);
  }

  lemma DestroyedReqs(s: State, r: Rid)
    requires r in s.reqs
    ensures Destroy(s, r).reqs == s.reqs - {r}
  {}

  lemma RequeueWaits(s: State, r: Rid)
    requires Tracked(s, true) && r in s.reqs && s.f.place[r] == Work
    ensures Waits(s.g, s.reqs[r], Pending, s.hist[r], true)
  {
    assert Waits(s.g, s.reqs[r], Work, s.hist[r], true);
  }

  /** A failed waiter is destroyed. */
  lemma FailNextKeeps(s: State, r: Rid, id: Id)
    requires Sound(s, true) && NoHand(s) && Head(s, Work, r)
    requires !s.reqs[r].isPending && id in s.hist[r] && id in s.g.nodes && s.g.nodes[id].failed
    ensures Sound(DoPublishNext(s, r, id), true)
  {
    PlaceOf(s, Work, r);
    WaiterFacts(s, r, id);
    TakeSound(s, r, true);
    FailWaiterKeeps(Take(s, r), r, true);
    assert DoPublishNext(s, r, id) == Destroy(Abort(Take(s, r), r), r);
  }

  /** A woken waiter goes back to the front of the pending list. */
  lemma WakeNextFiled(s: State, r: Rid, id: Id)
    requires Filed(s) && Head(s, Work, r) && id in s.g.nodes && !s.g.nodes[id].failed
    requires s.f.place[r] == Work && Proper(s.reqs[r], Pending) && !CancelDue(s.reqs[r])
    ensures Filed(DoPublishNext(s, r, id))
  {
    TakeFiled(s, r);
    PutFiled(Take(s, r), r, Pending, 0);
  }

  lemma WakeNextTracked(s: State, r: Rid, id: Id)
    requires Tracked(s, true) && Head(s, Work, r) && id in s.g.nodes && !s.g.nodes[id].failed
    requires s.f.place[r] == Work
    ensures Tracked(DoPublishNext(s, r, id), true)
  {
    RequeueWaits(s, r);
    TakeTracked(s, r, true);
    PutTracked(Take(s, r), r, Pending, 0, true);
  }

  lemma PublishNextShape(s: State, r: Rid, id: Id)
    requires Listed(s.f) && NoHand(s) && Head(s, Work, r) && id in s.g.nodes
    requires s.reqs.Keys == s.hist.Keys == s.f.place.Keys
    ensures var t := DoPublishNext(s, r, id);
      && NoHand(t)
      && t.reqs.Keys <= s.reqs.Keys && t.hist.Keys == t.reqs.Keys
      && (forall x <- t.reqs :: t.reqs[x] == s.reqs[x] && t.hist[x] == s.hist[x])
      && ListOf(t.f, Work) == ListOf(s.f, Work)[1..] && ListOf(t.f, Root) == ListOf(s.f, Root)
      && t.cancelWork == s.cancelWork && t.mode == s.mode
  {
    assert s.f.place[r] == Work;
    WithoutHead(ListOf(s.f, Work));
    if s.g.nodes[id].failed { FailNextShape(s, r, id); } else { WakeNextShape(s, r, id); }
  }

  lemma FailNextShape(s: State, r: Rid, id: Id)
    requires NoHand(s) && Head(s, Work, r) && id in s.g.nodes && s.g.nodes[id].failed
    requires s.reqs.Keys == s.hist.Keys == s.f.place.Keys && s.f.place[r] == Work
    ensures var t := DoPublishNext(s, r, id);
      && NoHand(t) && t.reqs == s.reqs - {r} && t.hist == s.hist - {r}
      && ListOf(t.f, Work) == Without(ListOf(s.f, Work), r) && ListOf(t.f, Root) == ListOf(s.f, Root)
      && t.cancelWork == s.cancelWork && t.mode == s.mode
  {
    DestroyedReqs(Abort(Take(s, r), r), r);
  }

  lemma WakeNextShape(s: State, r: Rid, id: Id)
    requires NoHand(s) && Head(s, Work, r) && id in s.g.nodes && !s.g.nodes[id].failed && s.f.place[r] == Work
    ensures var t := DoPublishNext(s, r, id);
      && NoHand(t) && t.reqs == s.reqs && t.hist == s.hist
      && ListOf(t.f, Work) == Without(ListOf(s.f, Work), r) && ListOf(t.f, Root) == ListOf(s.f, Root)
      && t.cancelWork == s.cancelWork && t.mode == s.mode
  {}

  lemma TakeListsFiled(s: State)
    requires Filed(s) && NoHand(s) && ListOf(s.f, Work) == [] && s.cancelWork == [] && Open(s.mode)
    ensures var t := DoTakeLists(s);
      Filed(t) && NoHand(t) && ListOf(t.f, Root) == ListOf(s.f, Root)
  {
    MoveFiled(s, Pending, Work);
    MoveListed(s.f, Pending, Work);
    CancelSwap(s.(f := Move(s.f, Pending, Work)));
  }

  lemma CancelSwap(s: State)
    requires Filed(s) && s.cancelWork == [] && Open(s.mode)
    ensures Filed(s.(mode := Draining, cancelWork := s.cancelled, cancelled := []))
  {
    assert s.cancelled + [] == s.cancelWork + s.cancelled;
  }

  lemma TakeListsTracked(s: State)
    requires Tracked(s, true)
    ensures Tracked(DoTakeLists(s), true)
  {
    var t := s.(f := Move(s.f, Pending, Work));
    DetachedAllWait(s);
    TrackedFrame(t, DoTakeLists(s), true);
  }

  lemma DetachedAllWait(s: State)
    requires AllWait(s, true)
    ensures AllWait(s.(f := Move(s.f, Pending, Work)), true)
  {
    var t := s.(f := Move(s.f, Pending, Work));
    forall r <- s.reqs ensures Waits(s.g, s.reqs[r], t.f.place[r], s.hist[r], true) {
      assert Waits(s.g, s.reqs[r], s.f.place[r], s.hist[r], true);
      assert t.f.place[r] == if s.f.place[r] == Pending then Work else s.f.place[r];
      DetachedWaits(s.g, s.reqs[r], s.hist[r]);
    }
  }

  lemma DetachedWaits(g: Graph, q: Request, h: seq<Id>)
    ensures Waits(g, q, Pending, h, true) ==> Waits(g, q, Work, h, true)
  {}

  lemma DropCancelledFiled(s: State, r: Rid)
    requires Filed(s) && NoHand(s) && s.cancelWork != [] && s.cancelWork[0] == r
    requires r in s.reqs && r in s.f.place && s.f.place[r] in {Queued, Inactive, Refresh}
    ensures Filed(DoDropCancelled(s, r))
  {
    TakeFiled(s, r);
    PopCancelled(Take(s, r), r);
    DestroyFiled(Take(s, r).(cancelWork := s.cancelWork[1..]), r);
  }

  lemma DropCancelledShape(s: State, r: Rid)
    requires Listed(s.f) && NoHand(s) && s.cancelWork != []
    requires r in s.reqs && r in s.f.place && s.f.place[r] in {Queued, Inactive, Refresh}
    ensures var t := DoDropCancelled(s, r);
      && NoHand(t) && t.mode == s.mode && t.cancelled == s.cancelled && t.cancelWork == s.cancelWork[1..]
      && ListOf(t.f, Work) == ListOf(s.f, Work) && ListOf(t.f, Root) == ListOf(s.f, Root)
  {
    UnfileListed(s.f, r);
  }

  lemma DropCancelledTracked(s: State, r: Rid)
    requires Tracked(s, true) && s.cancelWork != []
    requires r in s.reqs && r in s.f.place && s.f.place[r] in {Queued, Inactive, Refresh}
    ensures Tracked(DoDropCancelled(s, r), true)
  {
    var u := Take(s, r).(cancelWork := s.cancelWork[1..]);
    TakeTracked(s, r, true);
    TrackedFrame(Take(s, r), u, true);
    DestroyTracked(u, r, true);
  }

  lemma PopCancelled(s: State, r: Rid)
    requires Filed(s) && s.cancelWork != [] && s.cancelWork[0] == r && r in s.f.place && s.f.place[r] == Hand
    ensures Filed(s.(cancelWork := s.cancelWork[1..]))
    ensures r !in s.cancelWork[1..] + s.cancelled
  {
    var l := s.cancelWork + s.cancelled;
    assert l[1..] == s.cancelWork[1..] + s.cancelled;
    assert l[0] == r;
  }

  /** A cancelled request waits in a multimap. */
  lemma CancelledPlace(s: State, r: Rid)
    requires Filed(s) && NoHand(s) && r in s.cancelWork
    ensures r in s.reqs && r in s.f.place && s.f.place[r] in {Queued, Inactive, Refresh}
  {
    assert r in s.cancelWork + s.cancelled;
  }

  /** The head of the snapshot, unflagged, is in hand. */
  lemma TakenSound(s: State, r: Rid)
    requires Sound(s, true) && NoHand(s) && Head(s, Work, r)
    ensures var t := Taken(s, r);
      && Sound(t, true) && OnlyHand(t, r) && r in t.reqs && t.f.place[r] == Hand
      && forall p: Place {:trigger ListOf(t.f, p)} :: p != Work ==> ListOf(t.f, p) == ListOf(s.f, p)
    ensures r !in s.cancelWork + s.cancelled && !s.reqs[r].attached
  {
    PlaceOf(s, Work, r);
    TakeSound(s, r, true);
    HandSound(Take(s, r), r, s.reqs[r].(isPending := false), true);
  }

  lemma RetainShape(s: State, r: Rid)
    requires r in s.reqs
    ensures var t := Retain(s, r);
      && t == s.(g := t.g, reqs := t.reqs) && t.reqs == s.reqs[r := s.reqs[r].(retained := t.reqs[r].retained)]
  {
    assert s.reqs[r := s.reqs[r]] == s.reqs;
  }

  lemma RetainSound(s: State, r: Rid)
    requires Sound(s, true) && r in s.reqs && s.f.place[r] == Hand
    ensures Sound(Retain(s, r), true) && PinnedDeps(Retain(s, r).reqs[r]) == s.reqs[r].deps
  {
    var t := Retain(s, r);
    RetainShape(s, r);
    RetainTracked(s, r);
    HandFiled(s, r, t.reqs[r]);
    GraphFiled(SetReq(s, r, t.reqs[r]), t.g);
  }

  lemma BlockFiled(s: State, r: Rid, id: Id)
    requires Filed(s) && r in s.reqs && s.f.place[r] == Hand && Proper(s.reqs[r], Blocked(id)) && !CancelDue(s.reqs[r])
    ensures Filed(Block(s, r, id))
  {
    var t := Put(s, r, Blocked(id), |ListOf(s.f, Blocked(id))|);
    PutFiled(s, r, Blocked(id), |ListOf(s.f, Blocked(id))|);
    FiledFrame(t, Block(s, r, id));
  }

  /** The move leaves nobody in hand and touches only lists the loop thread has not detached. */
  ghost predicate Landed(s: State, t: State) {
    Sound(t, true) && NoHand(t) && SameModes(s, t)
  }

  lemma BlockLanded(s: State, r: Rid, id: Id)
    requires Sound(s, true) && OnlyHand(s, r) && r in s.reqs && s.f.place[r] == Hand
    requires Proper(s.reqs[r], Blocked(id)) && id in PinnedDeps(s.reqs[r]) && !Resolved(s.g, id)
    requires !CancelDue(s.reqs[r])
    ensures Landed(s, Block(s, r, id))
  {
    BlockFiled(s, r, id);
    BlockTracked(s, r, id);
    BlockLists(s, r, id);
  }

  lemma BlockLists(s: State, r: Rid, id: Id)
    requires Listed(s.f) && OnlyHand(s, r) && r in s.hist && r in s.f.place && s.f.place[r] == Hand
    ensures NoHand(Block(s, r, id)) && SameModes(s, Block(s, r, id))
  {
    FileListed(s.f, r, Blocked(id), |ListOf(s.f, Blocked(id))|);
  }

  /** Blocking, starting or enqueuing a request whose dependencies are pinned. */
  lemma AdmitLanded(s: State, r: Rid, poll: nat, now: Time, launch: Launch)
    requires Sound(s, true) && OnlyHand(s, r) && r in s.reqs && s.f.place[r] == Hand
    requires !s.reqs[r].isPending && !s.reqs[r].isCancelled && !s.reqs[r].attached
    requires PinnedDeps(s.reqs[r]) == s.reqs[r].deps && AdmitFits(s, r, poll, now, launch)
    ensures Landed(s, Admit(s, r, poll, now, launch))
  {
    UnmetIsDep(s.g, s.reqs[r].deps);
    match FirstUnmet(s.g, s.reqs[r].deps)
    case Some(id) =>
      BlockLanded(s, r, id);
    case None =>
      PassedNow(s, r);
      if Ready(s, r, poll, now) { StartSettled(s, r, launch); }
      else { EnqueuedSettled(s, r, launch.pos); }
  }

  lemma PassedNow(s: State, r: Rid)
    requires Tracked(s, true) && r in s.reqs && s.f.place[r] == Hand
    requires PinnedDeps(s.reqs[r]) == s.reqs[r].deps && forall d <- s.reqs[r].deps :: Resolved(s.g, d)
    ensures Passed(s, r)
  {
    assert Waits(s.g, s.reqs[r], Hand, s.hist[r], true);
  }

  lemma TakeOneKeeps(s: State, r: Rid, poll: nat, now: Time, launch: Launch)
    requires Sound(s, true) && NoHand(s) && Head(s, Work, r)
    requires !s.reqs[r].isCancelled ==> AdmitFits(Retain(Taken(s, r), r), r, poll, now, launch)
    ensures var t := DoTakeOne(s, r, poll, now, launch);
      && Sound(t, true) && NoHand(t)
      && t.mode == s.mode && t.cancelled == s.cancelled && t.cancelWork == s.cancelWork
      && ListOf(t.f, Root) == ListOf(s.f, Root)
  {
    TakenSound(s, r);
    var u := Taken(s, r);
    if s.reqs[r].isCancelled {
      DestroySound(u, r, true);
    } else {
      RetainSound(u, r);
      RetainShape(u, r);
      AdmitLanded(Retain(u, r), r, poll, now, launch);
    }
  }

  // ----- scans

  /** A request waiting in a multimap, taken in hand. */
  lemma TakenMovable(s: State, r: Rid)
    requires Sound(s, true) && NoHand(s) && r in s.reqs && ByKey(s.f.place[r]) && !s.reqs[r].isCancelled
    ensures Movable(Take(s, r), r)
  {
    PassedTaken(s, r);
    TakeSound(s, r, true);
    assert Proper(s.reqs[r], s.f.place[r]);
  }

  lemma PassedTaken(s: State, r: Rid)
    requires Tracked(s, true) && r in s.reqs && ByKey(s.f.place[r])
    ensures Passed(Take(s, r), r)
  {
    assert Waits(s.g, s.reqs[r], s.f.place[r], s.hist[r], true);
  }

  /** Taking the head off one multimap moves nothing in another. */
  lemma TakeFits(s: State, r: Rid, p: Place, key: Time, pos: nat)
    requires Listed(s.f) && r in s.f.place && s.f.place[r] != Hand && s.f.place[r] != p && Fits(s, p, key, pos)
    ensures Fits(Take(s, r), p, key, pos) && ListOf(Take(s, r).f, p) == ListOf(s.f, p)
  {
    UnfileListed(s.f, r);
  }

  lemma TakenMode(s: State, t: State, r: Rid)
    requires Listed(s.f) && r in s.f.place && ByKey(s.f.place[r])
    requires SettledFrom(Take(s, r), t)
    ensures t.mode == s.mode && t.cancelled == s.cancelled && t.cancelWork == s.cancelWork
    ensures ListOf(t.f, Work) == ListOf(s.f, Work)
    ensures s.f.place[r] != Root ==> ListOf(t.f, Root) == ListOf(s.f, Root)
  {
    UnfileListed(s.f, r);
  }

  /** What a turn of a scan may leave changed. */
  ghost predicate Scanned(s: State, t: State, r: Rid)
    requires r in s.f.place
  {
    && Sound(t, true) && NoHand(t)
    && t.mode == s.mode && t.cancelled == s.cancelled && t.cancelWork == s.cancelWork
    && ListOf(t.f, Work) == ListOf(s.f, Work)
    && (s.f.place[r] != Root ==> ListOf(t.f, Root) == ListOf(s.f, Root))
  }

  lemma ScanRefiles(s: State, r: Rid, key: Time, pos: nat)
    requires Sound(s, true) && NoHand(s) && r in s.reqs && !s.reqs[r].isCancelled
    requires s.f.place[r] in {Root, Refresh, Inactive} && Fits(s, RateLimited, key, pos)
    ensures Scanned(s, Put(Rekey(Take(s, r), r, key), r, RateLimited, pos), r)
  {
    TakenMovable(s, r);
    TakeFits(s, r, RateLimited, key, pos);
    RefiledSettled(Take(s, r), r, key, pos);
    TakenMode(s, Put(Rekey(Take(s, r), r, key), r, RateLimited, pos), r);
  }

  lemma ScanStarts(s: State, r: Rid, poll: nat, now: Time, launch: Launch)
    requires Sound(s, true) && NoHand(s) && r in s.reqs && !s.reqs[r].isCancelled
    requires s.f.place[r] in {Root, Refresh, Inactive}
    requires Ready(s, r, poll, now) && now <= launch.now && LaunchFits(s, s.reqs[r], launch)
    ensures Scanned(s, Start(Take(s, r), r, launch), r)
  {
    TakenMovable(s, r);
    LaunchTakeFits(s, r, launch);
    StartSettled(Take(s, r), r, launch);
    TakenMode(s, Start(Take(s, r), r, launch), r);
  }

  lemma ScanKeeps(s: State, r: Rid, first: nat, firstNow: Time, poll: nat, now: Time, launch: Launch)
    requires Sound(s, true) && NoHand(s) && r in s.reqs && !s.reqs[r].isCancelled
    requires s.f.place[r] in {Root, Refresh, Inactive}
    requires ScanFits(s, r, first, firstNow, poll, now, launch)
    ensures Scanned(s, DoScan(s, r, first, firstNow, poll, now, launch), r)
  {
    if s.reqs[r].rateLimited && first > 0 {
      ScanRefiles(s, r, firstNow + first, launch.pos);
    } else if Ready(s, r, poll, now) {
      ScanStarts(s, r, poll, now, launch);
    }
  }

  lemma LaunchTakeFits(s: State, r: Rid, launch: Launch)
    requires Listed(s.f) && r in s.reqs && r in s.f.place && s.f.place[r] in {Root, Refresh, Inactive}
    requires LaunchFits(s, s.reqs[r], launch)
    ensures LaunchFits(Take(s, r), s.reqs[r], launch)
    ensures ListOf(Take(s, r).f, Queued) == ListOf(s.f, Queued)
  {
    UnfileListed(s.f, r);
  }

  lemma MergeFiled(s: State, r: Rid, pos: nat)
    requires Filed(s) && Head(s, RateLimited, r) && Fits(s, Root, s.reqs[r].key, pos)
    ensures Filed(Put(Take(s, r), r, Root, pos))
  {
    PlaceOf(s, RateLimited, r);
    TakeFiled(s, r);
    TakeFits(s, r, Root, s.reqs[r].key, pos);
    assert Proper(s.reqs[r], RateLimited);
    PutFiled(Take(s, r), r, Root, pos);
  }

  lemma MergeShape(s: State, r: Rid, pos: nat)
    requires Listed(s.f) && NoHand(s) && Head(s, RateLimited, r)
    ensures var t := Put(Take(s, r), r, Root, pos);
      NoHand(t) && ListOf(t.f, Work) == ListOf(s.f, Work)
  {
    assert r in ListOf(s.f, RateLimited);
    UnfileListed(s.f, r);
    FileListed(Unfile(s.f, r), r, Root, pos);
  }

  lemma MergeTracked(s: State, r: Rid, pos: nat)
    requires Tracked(s, true) && r in s.reqs && s.f.place[r] == RateLimited
    ensures Tracked(Put(Take(s, r), r, Root, pos), true)
  {
    assert Waits(s.g, s.reqs[r], RateLimited, s.hist[r], true);
    TakeTracked(s, r, true);
    PutTracked(Take(s, r), r, Root, pos, true);
  }

  /** The rate-limited map is detached as a whole, and put back as a whole. */
  lemma SwapFiled(s: State, p: Place, q: Place, mode: Mode)
    requires Filed(s) && NoHand(s) && ListOf(s.f, q) == [] && Open(s.mode)
    requires (p == RateLimited && q == Root) || (p == Root && q == RateLimited)
    ensures var t := s.(f := Move(s.f, p, q), mode := mode);
      && Filed(t) && NoHand(t) && ListOf(t.f, Work) == ListOf(s.f, Work) && ListOf(t.f, p) == []
  {
    MoveFiled(s, p, q);
    MoveListed(s.f, p, q);
    FiledFrame(s.(f := Move(s.f, p, q)), s.(f := Move(s.f, p, q), mode := mode));
  }

  lemma SwapTracked(s: State, p: Place, q: Place, mode: Mode)
    requires Tracked(s, true)
    requires (p == RateLimited && q == Root) || (p == Root && q == RateLimited)
    ensures Tracked(s.(f := Move(s.f, p, q), mode := mode), true)
  {
    var t := s.(f := Move(s.f, p, q));
    forall r <- s.reqs ensures Waits(t.g, t.reqs[r], t.f.place[r], t.hist[r], true) {
      assert Waits(s.g, s.reqs[r], s.f.place[r], s.hist[r], true);
    }
    TrackedFrame(t, s.(f := Move(s.f, p, q), mode := mode), true);
  }

  // ----- completions

  lemma CompletedRetries(q: Request, c: Completion)
    requires RetriesOk(q)
    ensures RetriesOk(Completed(q, c))
  {
    if Granted(q, c) && !q.refresh && q.maxRetries >= 0 {
      assert q.retries < q.maxRetries;
    }
    assert OutcomeOf(q, c) == Again ==> q.refresh;
  }

  /** The transfer is over: its request is out of the queue, with its new key, and may be moved. */
  lemma CompletedMovable(s: State, r: Rid, c: Completion)
    requires Sound(s, true) && NoHand(s) && r in s.reqs && s.f.place[r] == Queued && !s.reqs[r].isCancelled
    ensures Movable(SetReq(Take(s, r), r, Completed(s.reqs[r], c)), r)
  {
    TakenMovable(s, r);
    CompletedRetries(s.reqs[r], c);
    ChangeMovable(Take(s, r), r, Completed(s.reqs[r], c));
  }

  lemma ChangeMovable(s: State, r: Rid, q: Request)
    requires Movable(s, r) && RetriesOk(q)
    requires q == s.reqs[r].(key := q.key, retries := q.retries, granted := q.granted)
    ensures Movable(SetReq(s, r, q), r)
  {
    HandSound(s, r, q, true);
    PassedWaits(s.g, s.reqs[r], q, Inactive, s.hist[r]);
  }

  lemma CleanupMovable(s: State, r: Rid)
    requires Movable(s, r)
    ensures Movable(Cleanup(s, r), r) && !Cleanup(s, r).reqs[r].attached
    ensures Cleanup(s, r).f == s.f && Cleanup(s, r).reqs == s.reqs[r := s.reqs[r].(attached := false)]
    ensures SameModes(s, Cleanup(s, r))
  {
    CleanupFiled(s, r);
    CleanupShape(s, r);
    SetTracked(s, r, s.reqs[r].(attached := false), true);
    TrackedFrame(SetReq(s, r, s.reqs[r].(attached := false)), Cleanup(s, r), true);
    PassedWaits(s.g, s.reqs[r], s.reqs[r].(attached := false), Inactive, s.hist[r]);
  }

  lemma CleanupShape(s: State, r: Rid)
    requires r in s.reqs
    ensures var t := Cleanup(s, r);
      && t == s.(reqs := t.reqs, numMulti := t.numMulti)
      && t.reqs == s.reqs[r := s.reqs[r].(attached := false)]
  {
    assert s.reqs[r := s.reqs[r]] == s.reqs;
  }

  /** The completed request is filed again in the multimap of its kind. */
  lemma RequeuedSettled(s: State, r: Rid, pos: nat)
    requires Movable(s, r) && Fits(s, EnqueuePlace(s.reqs[r]), s.reqs[r].key, pos)
    ensures SettledFrom(s, Put(Cleanup(s, r), r, EnqueuePlace(s.reqs[r]), pos))
  {
    CleanupMovable(s, r);
    var t := Cleanup(s, r);
    FitsElsewhere(s, t, r, EnqueuePlace(s.reqs[r]), s.reqs[r].key, pos);
    EnqueuedSettled(t, r, pos);
  }

  lemma TooManySettled(s: State, r: Rid, pos: nat)
    requires Movable(s, r) && Fits(s, RateLimited, s.reqs[r].key, pos)
    ensures SettledFrom(s, Put(s, r, RateLimited, pos))
  {
    PassedWaits(s.g, s.reqs[r], s.reqs[r], RateLimited, s.hist[r]);
    PutSettled(s, s, r, RateLimited, s.reqs[r].key, pos);
  }

  lemma FinishedSettled(s: State, r: Rid)
    requires Movable(s, r)
    ensures SettledFrom(s, Destroy(s, r))
  {
    DestroySound(s, r, true);
  }

  lemma CompletedFits(s: State, r: Rid, q: Request, p: Place, pos: nat)
    requires Listed(s.f) && r in s.reqs && r in s.f.place && s.f.place[r] == Queued
    requires p in {Inactive, Refresh, RateLimited} && Fits(s, p, q.key, pos)
    ensures Fits(SetReq(Take(s, r), r, q), p, q.key, pos)
  {
    TakeFits(s, r, p, q.key, pos);
    UnfileListed(s.f, r);
    FitsElsewhere(Take(s, r), SetReq(Take(s, r), r, q), r, p, q.key, pos);
  }

  lemma SettledModes(s: State, u: State, t: State, r: Rid)
    requires Listed(s.f) && r in s.f.place && s.f.place[r] == Queued && u == s.(f := Unfile(s.f, r), reqs := u.reqs)
    requires SettledFrom(u, t)
    ensures Landed(s, t)
  {
    UnfileListed(s.f, r);
  }

  lemma CompleteKeeps(s: State, r: Rid, c: Completion)
    requires Sound(s, true) && NoHand(s) && r in s.reqs && s.f.place[r] == Queued && !s.reqs[r].isCancelled
    requires CompleteFits(s, r, c)
    ensures Landed(s, DoComplete(s, r, c))
  {
    var q := Completed(s.reqs[r], c);
    var u := SetReq(Take(s, r), r, q);
    CompletedMovable(s, r, c);
    CompletedSettled(s, r, c);
    SettledModes(s, u, DoComplete(s, r, c), r);
  }

  lemma CompletedSettled(s: State, r: Rid, c: Completion)
    requires Listed(s.f) && r in s.reqs && r in s.f.place && s.f.place[r] == Queued
    requires Movable(SetReq(Take(s, r), r, Completed(s.reqs[r], c)), r)
    requires CompleteFits(s, r, c)
    ensures SettledFrom(SetReq(Take(s, r), r, Completed(s.reqs[r], c)), DoComplete(s, r, c))
  {
    var q := Completed(s.reqs[r], c);
    var u := SetReq(Take(s, r), r, q);
    match OutcomeOf(s.reqs[r], c)
    case TooMany =>
      CompletedFits(s, r, q, RateLimited, c.pos);
      TooManySettled(u, r, c.pos);
    case Finished =>
      FinishedSettled(u, r);
    case _ =>
      CompletedRetries(s.reqs[r], c);
      CompletedFits(s, r, q, EnqueuePlace(q), c.pos);
      RequeuedSettled(u, r, c.pos);
      assert DoComplete(s, r, c) == Put(Cleanup(u, r), r, EnqueuePlace(q), c.pos);
  }

  // ----- teardown

  /** Nodes go only if nobody is blocked on them, and the callers' references to the others stay. */
  ghost predicate Outlives(g: Graph, f: Files, h: Graph) {
    && h.nodes.Keys <= g.nodes.Keys
    && (forall id <- h.nodes :: Client(h, id) == Client(g, id) && h.nodes[id].autoRelease == g.nodes[id].autoRelease)
    && (forall id <- g.nodes :: id !in h.nodes ==> ListOf(f, Blocked(id)) == [])
  }

  lemma ReleaseDepOutlives(g: Graph, f: Files, d: Id)
    ensures Outlives(g, f, ReleaseDep(g, f, d))
  {}

  lemma {:induction false} ReleaseDepsOutlives(g: Graph, f: Files, ds: seq<Id>)
    ensures Outlives(g, f, ReleaseDeps(g, f, ds))
    decreases ds
  {
    if ds == [] {
    } else {
      ReleaseDepOutlives(g, f, ds[0]);
      ReleaseDepsOutlives(ReleaseDep(g, f, ds[0]), f, ds[1..]);
    }
  }

  /** A held node survives the destruction of a request that is not blocked. */
  lemma HeldSurvives(s: State, f: Files, r: Rid, id: Id)
    requires Counted(s.g, Pins(s.reqs)) && r in s.reqs && r in s.f.place && !s.f.place[r].Blocked?
    requires id in s.g.nodes && Held(s, id)
    ensures id in ReleaseDeps(s.g, f, PinnedDeps(s.reqs[r])).nodes
  {
    var ds, rest := PinnedDeps(s.reqs[r]), s.reqs - {r};
    PinsRemove(s.reqs, r);
    assert Pins(s.reqs)[id] == PublishSafety.Times(ds, id) + Pins(rest)[id];
    PublishSafety.ReleaseTracks(s.g, f, ds, id);
    if s.g.nodes[id].autoRelease && Client(s.g, id) < 2 {
      var x :| x in s.reqs && PinsLater(s, x, id);
      PinsHold(rest, x, id);
    }
  }

  /** Whether a node is held does not depend on requests that are not blocked. */
  lemma HeldSame(s: State, t: State, r: Rid, id: Id)
    requires r in s.f.place && !s.f.place[r].Blocked? && t.reqs == s.reqs - {r}
    requires forall x <- t.reqs :: x in s.f.place && x in t.f.place && t.f.place[x] == s.f.place[x]
    requires id in s.g.nodes && id in t.g.nodes && Client(t.g, id) == Client(s.g, id)
    requires t.g.nodes[id].autoRelease == s.g.nodes[id].autoRelease
    ensures Held(t, id) <==> Held(s, id)
  {
    assert forall x <- t.reqs :: PinsLater(t, x, id) <==> PinsLater(s, x, id);
    assert forall x <- s.reqs :: PinsLater(s, x, id) ==> x in t.reqs;
  }

  lemma CloseNextKeeps(s: State, r: Rid)
    requires Sound(s, false) && NoHand(s) && r in s.reqs && !s.f.place[r].Blocked? && s.cancelWork + s.cancelled == []
    ensures var t := Destroy(Take(s, r), r);
      && Sound(t, false) && NoHand(t) && Shrunk(s.g, t.g, Pins(t.reqs))
      && t.mode == s.mode && t.cancelled == s.cancelled && t.cancelWork == s.cancelWork
      && forall p: Place {:trigger ListOf(t.f, p)} ::
           ListOf(t.f, p) == if p == s.f.place[r] then Without(ListOf(s.f, p), r) else ListOf(s.f, p)
  {
    TakeSound(s, r, false);
    DestroySound(Take(s, r), r, false);
  }

  lemma CloseNodeFiled(s: State, id: Id)
    requires Filed(s) && NoHand(s) && ListOf(s.f, Work) == []
    ensures var t := s.(f := Move(s.f, Blocked(id), Work), mode := ClosingNode(id));
      && Filed(t) && NoHand(t)
      && forall p: Place {:trigger ListOf(t.f, p)} ::
           ListOf(t.f, p) == if p == Blocked(id) then [] else if p == Work then ListOf(s.f, Blocked(id))
                             else ListOf(s.f, p)
  {
    MoveFiled(s, Blocked(id), Work);
    MoveListed(s.f, Blocked(id), Work);
    FiledFrame(s.(f := Move(s.f, Blocked(id), Work)), s.(f := Move(s.f, Blocked(id), Work), mode := ClosingNode(id)));
  }

  /** Detaching the waiters of one node leaves it open whether it and the nodes after it are held. */
  lemma CloseNodeHeld(s: State, id: Id, i: Id)
    requires id <= i && i in s.g.nodes && s.f.place.Keys == s.reqs.Keys
    ensures Held(s.(f := Move(s.f, Blocked(id), Work), mode := ClosingNode(id)), i) <==> Held(s, i)
  {
    var t := s.(f := Move(s.f, Blocked(id), Work), mode := ClosingNode(id));
    assert forall x <- s.reqs :: PinsLater(t, x, i) <==> PinsLater(s, x, i);
  }

  lemma CloseNodeTracked(s: State, id: Id)
    requires Tracked(s, false)
    ensures Tracked(s.(f := Move(s.f, Blocked(id), Work), mode := ClosingNode(id)), false)
  {
    var t := s.(f := Move(s.f, Blocked(id), Work));
    assert AllWait(t, false);
    TrackedFrame(t, s.(f := Move(s.f, Blocked(id), Work), mode := ClosingNode(id)), false);
  }

  lemma CloseWaiterKeeps(s: State, r: Rid)
    requires Sound(s, false) && NoHand(s) && Head(s, Work, r) && s.cancelWork + s.cancelled == []
    ensures var t := Destroy(Abort(Take(s, r), r), r); Sound(t, false) && NoHand(t)
  {
    PlaceOf(s, Work, r);
    TakeSound(s, r, false);
    FailWaiterKeeps(Take(s, r), r, false);
  }

  lemma CloseEraseTracked(s: State, id: Id)
    requires Tracked(s, false) && id in s.g.nodes
    requires forall r <- s.reqs :: s.f.place[r] != Blocked(id)
    ensures Tracked(s.(g := Erase(s.g, id)), false)
  {
    EraseBalanced(s.g, id);
    var h := Erase(s.g, id);
    forall r <- s.reqs ensures Waits(h, s.reqs[r], s.f.place[r], s.hist[r], false) {
      assert Waits(s.g, s.reqs[r], s.f.place[r], s.hist[r], false);
    }
    assert forall i <- h.nodes :: Client(h, i) == Client(s.g, i);
  }

  lemma CloseNextLists(s: State, r: Rid)
    requires Listed(s.f) && r in s.reqs && r in s.f.place && !s.f.place[r].Blocked? && s.f.place[r] != Hand
    ensures var t := Destroy(Take(s, r), r);
      && t.mode == s.mode && t.cancelled == s.cancelled && t.cancelWork == s.cancelWork
      && t.undrained == s.undrained && t.reqs == s.reqs - {r}
      && (s.f.place[r] != Work ==> ListOf(t.f, Work) == ListOf(s.f, Work))
      && (s.f.place[r] != Root ==> ListOf(t.f, Root) == ListOf(s.f, Root))
      && forall id: Id {:trigger Blocked(id)} :: ListOf(t.f, Blocked(id)) == ListOf(s.f, Blocked(id))
  {
    UnfileListed(s.f, r);
    DestroyedReqs(Take(s, r), r);
  }

  lemma CloseWaiterShape(s: State, r: Rid, id: Id)
    requires Filed(s) && Tracked(s, false) && Head(s, Work, r) && id in s.g.nodes && Held(s, id)
    ensures var t := Destroy(Abort(Take(s, r), r), r); id in t.g.nodes && Held(t, id)
  {
    PlaceOf(s, Work, r);
    HeldAfter(s, r, id);
  }

  lemma HeldAfter(s: State, r: Rid, id: Id)
    requires Counted(s.g, Pins(s.reqs)) && s.f.place.Keys == s.reqs.Keys && r in s.reqs && !s.f.place[r].Blocked?
    requires id in s.g.nodes && Held(s, id)
    ensures var t := Destroy(Abort(Take(s, r), r), r); id in t.g.nodes && Held(t, id)
  {
    var t, f := Destroy(Abort(Take(s, r), r), r), Unfile(s.f, r);
    DestroyedReqs(Abort(Take(s, r), r), r);
    HeldSurvives(s, f, r, id);
    ReleaseDepsOutlives(s.g, f, PinnedDeps(s.reqs[r]));
    HeldSame(s, t, r, id);
  }

  lemma CloseWaiterLists(s: State, r: Rid)
    requires Listed(s.f) && Head(s, Work, r)
    ensures var t := Destroy(Abort(Take(s, r), r), r);
      && t.mode == s.mode && t.cancelled == s.cancelled && t.cancelWork == s.cancelWork
      && t.undrained == s.undrained && t.reqs == s.reqs - {r}
      && ListOf(t.f, Root) == ListOf(s.f, Root)
      && forall id: Id {:trigger Blocked(id)} :: ListOf(t.f, Blocked(id)) == ListOf(s.f, Blocked(id))
  {
    assert s.f.place[r] == Work by { assert r in ListOf(s.f, Work); }
    UnfileListed(s.f, r);
    DestroyedReqs(Abort(Take(s, r), r), r);
  }
}
