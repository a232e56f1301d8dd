/** Runs of the event loop: the invariant holds in every reachable state. */
module LoopRuns {
  import opened Sequences
  import opened LoopState
  import opened LoopSteps
  import opened Filing
  import opened Counting
  import opened Waiting
  import opened LoopInvariant
  import opened LoopEvents

  lemma FrameSound(s: State, t: State, open: bool)
    requires Sound(s, open) && t == s.(mode := t.mode) && (Open(t.mode) ==> Open(s.mode))
    ensures Sound(t, open)
  {
    FiledFrame(s, t);
    TrackedFrame(s, t, open);
  }

  lemma SubmitEventKeeps(s: State, r: Rid, q: Request)
    requires Inv(s) && Enabled(s, Submit(r, q))
    ensures Inv(DoSubmit(s, r, q))
  {
    SubmitFiled(s, r, q);
    SubmitShape(s, r, q);
    SubmitTracked(s, r, q);
    SubmitMode(s, r, q);
  }

  lemma CancelEventKeeps(s: State, r: Rid)
    requires Inv(s) && Enabled(s, Cancel(r))
    ensures Inv(DoCancel(s, r))
  {
    CancelKeeps(s, r);
    CancelMode(s, r);
  }

  lemma CancelMode(s: State, r: Rid)
    requires ModeOk(s) && r in s.reqs && Open(s.mode)
    ensures ModeOk(DoCancel(s, r))
  {
    var t := DoCancel(s, r);
    assert t.f == s.f && t.g == s.g && t.hist == s.hist && t.cancelWork == s.cancelWork && t.mode == s.mode;
    assert forall x <- s.reqs :: t.reqs[x].isPending == s.reqs[x].isPending;
  }

  lemma ResourceEventKeeps(s: State, e: Event)
    requires Inv(s) && Enabled(s, e)
    requires e.Declare? || e.AddReference? || e.SetAutoRelease? || e.DropReference?
    ensures Inv(Apply(s, e))
  {
    ResourceKeeps(s, e.id, e.SetAutoRelease? && e.enable);
    GraphMode(s, Apply(s, e).g);
  }

  lemma GraphMode(s: State, h: Graph)
    requires ModeOk(s) && NoHand(s) && s.mode.Running?
    ensures ModeOk(s.(g := h)) && NoHand(s.(g := h))
  {}

  lemma SubmitMode(s: State, r: Rid, q: Request)
    requires Inv(s) && Open(s.mode) && r !in s.reqs
    requires SameModes(s, DoSubmit(s, r, q))
    ensures ModeOk(DoSubmit(s, r, q))
  {
    forall x <- ListOf(s.f, Work) ensures x != r { PlaceOf(s, Work, x); }
  }

  lemma PublishInv(s: State, id: Id, payload: Option<Payload>, cleanup: bool)
    requires Inv(s) && s.mode.Running?
    ensures Inv(DoPublish(s, id, payload, cleanup))
  {
    PublishFiled(s, id, payload, cleanup);
    PublishTracked(s, id, payload, cleanup);
    WaitersMode(s, id);
  }

  lemma PublishEndInv(s: State)
    requires Inv(s) && s.mode.Publishing? && ListOf(s.f, Work) == []
    ensures Inv(s.(mode := Running))
  {
    FrameSound(s, s.(mode := Running), true);
  }

  lemma PublishEventKeeps(s: State, e: Event)
    requires Inv(s) && Enabled(s, e) && (e.Publish? || e.PublishNext? || e.PublishEnd?)
    ensures Inv(Apply(s, e))
  {
    if e.Publish? { PublishInv(s, e.id, e.payload, e.cleanup); }
    else if e.PublishNext? { PublishNextInv(s, e.r); }
    else { PublishEndInv(s); }
  }

  lemma PublishNextInv(s: State, r: Rid)
    requires Inv(s) && s.mode.Publishing? && Head(s, Work, r) && s.mode.id in s.g.nodes
    ensures Inv(DoPublishNext(s, r, s.mode.id))
  {
    var id := s.mode.id;
    PlaceOf(s, Work, r);
    PublishNextShape(s, r, id);
    if s.g.nodes[id].failed {
      FailNextKeeps(s, r, id);
    } else {
      WaiterFacts(s, r, id);
      WakeNextFiled(s, r, id);
      WakeNextTracked(s, r, id);
    }
    PublishNextMode(s, r);
  }

  lemma PublishNextMode(s: State, r: Rid)
    requires Inv(s) && s.mode.Publishing? && Head(s, Work, r) && s.mode.id in s.g.nodes
    requires var t := DoPublishNext(s, r, s.mode.id);
      && t.hist.Keys == t.reqs.Keys && (forall x <- t.reqs :: t.reqs[x] == s.reqs[x] && t.hist[x] == s.hist[x])
      && ListOf(t.f, Work) == ListOf(s.f, Work)[1..] && ListOf(t.f, Root) == ListOf(s.f, Root)
      && t.cancelWork == s.cancelWork && t.mode == s.mode && Filed(t)
    ensures ModeOk(DoPublishNext(s, r, s.mode.id))
  {
    var t := DoPublishNext(s, r, s.mode.id);
    forall x <- ListOf(t.f, Work)
      ensures x in t.reqs && x in t.hist && s.mode.id in t.hist[x] && !t.reqs[x].isPending
    {
      PlaceOf(t, Work, x);
      assert x in ListOf(s.f, Work);
    }
  }

  lemma TakeListsInv(s: State)
    requires Inv(s) && s.mode.Running?
    ensures Inv(DoTakeLists(s))
  {
    TakeListsFiled(s);
    TakeListsTracked(s);
  }

  lemma DropCancelledInv(s: State, r: Rid)
    requires Inv(s) && s.mode.Draining? && s.cancelWork != [] && s.cancelWork[0] == r && r in s.reqs && r in s.f.place
    ensures Inv(DoDropCancelled(s, r))
  {
    CancelledPlace(s, r);
    DropCancelledFiled(s, r);
    DropCancelledTracked(s, r);
    DropCancelledShape(s, r);
  }

  lemma TakeOneInv(s: State, r: Rid, poll: nat, now: Time, launch: Launch)
    requires Inv(s) && s.mode.Draining? && s.cancelWork == [] && Head(s, Work, r)
    requires !s.reqs[r].isCancelled ==> AdmitFits(Retain(Taken(s, r), r), r, poll, now, launch)
    ensures Inv(DoTakeOne(s, r, poll, now, launch))
  {
    TakeOneKeeps(s, r, poll, now, launch);
  }

  lemma DrainEventKeeps(s: State, e: Event)
    requires Inv(s) && Enabled(s, e) && (e.TakeLists? || e.DropCancelled? || e.TakeOne? || e.DrainEnd?)
    ensures Inv(Apply(s, e))
  {
    if e.TakeLists? { TakeListsInv(s); }
    else if e.DropCancelled? { DropCancelledInv(s, e.r); }
    else if e.TakeOne? { TakeOneInv(s, e.r, e.poll, e.now, e.launch); }
    else { FrameSound(s, s.(mode := Running), true); }
  }

  lemma DetachRateInv(s: State)
    requires Inv(s) && s.mode.Running?
    ensures Inv(s.(f := Move(s.f, RateLimited, Root), mode := Scanning))
  {
    SwapFiled(s, RateLimited, Root, Scanning);
    SwapTracked(s, RateLimited, Root, Scanning);
  }

  lemma ScanEndInv(s: State)
    requires Inv(s) && s.mode.Scanning? && ListOf(s.f, RateLimited) == []
    ensures Inv(s.(f := Move(s.f, Root, RateLimited), mode := Running))
  {
    SwapFiled(s, Root, RateLimited, Running);
    SwapTracked(s, Root, RateLimited, Running);
  }

  lemma MergeOneInv(s: State, r: Rid, pos: nat)
    requires Inv(s) && s.mode.Scanning? && Head(s, RateLimited, r) && Fits(s, Root, s.reqs[r].key, pos)
    ensures Inv(Put(Take(s, r), r, Root, pos))
  {
    PlaceOf(s, RateLimited, r);
    MergeFiled(s, r, pos);
    MergeShape(s, r, pos);
    MergeTracked(s, r, pos);
  }

  lemma ScanInv(s: State, e: Event)
    requires Inv(s) && Enabled(s, e) && e.Scan?
    ensures Inv(DoScan(s, e.r, e.first, e.firstNow, e.poll, e.now, e.launch))
  {
    PlaceOf(s, e.p, e.r);
    ScanKeeps(s, e.r, e.first, e.firstNow, e.poll, e.now, e.launch);
  }

  lemma CompleteInv(s: State, r: Rid, c: Completion)
    requires Inv(s) && s.mode.Running? && r in s.reqs && s.f.place[r] == Queued && !s.reqs[r].isCancelled
    requires CompleteFits(s, r, c)
    ensures Inv(DoComplete(s, r, c))
  {
    CompleteKeeps(s, r, c);
  }

  lemma ScanEventKeeps(s: State, e: Event)
    requires Inv(s) && Enabled(s, e)
    requires e.DetachRate? || e.Scan? || e.MergeOne? || e.ScanEnd? || e.Complete?
    ensures Inv(Apply(s, e))
  {
    if e.DetachRate? { DetachRateInv(s); }
    else if e.Scan? { ScanInv(s, e); }
    else if e.MergeOne? { MergeOneInv(s, e.r, e.pos); }
    else if e.ScanEnd? { ScanEndInv(s); }
    else { CompleteInv(s, e.r, e.c); }
  }

  lemma CloseBeginInv(s: State)
    requires Inv(s) && s.mode.Running?
    ensures Inv(s.(mode := Closing, undrained := s.cancelled, cancelled := []))
  {
    CloseBeginFiled(s);
    CloseBeginMode(s);
    TrackedFrame(s, s.(mode := Closing, undrained := s.cancelled, cancelled := []), false);
  }

  lemma CloseBeginFiled(s: State)
    requires Filed(s) && s.cancelWork == []
    ensures Filed(s.(mode := Closing, undrained := s.cancelled, cancelled := []))
  {}

  lemma CloseBeginMode(s: State)
    requires Filed(s) && ModeOk(s) && s.mode.Running?
    ensures ModeOk(s.(mode := Closing, undrained := s.cancelled, cancelled := []))
  {
    assert s.cancelWork + s.cancelled == s.cancelled;
  }

  lemma CloseNextInv(s: State, r: Rid)
    requires Inv(s) && s.mode.Closing? && r in s.reqs && !s.f.place[r].Blocked?
    ensures Inv(Destroy(Take(s, r), r))
  {
    CloseNextKeeps(s, r);
    CloseNextMode(s, r);
  }

  lemma CloseNextMode(s: State, r: Rid)
    requires Inv(s) && s.mode.Closing? && r in s.reqs && !s.f.place[r].Blocked?
    ensures ModeOk(Destroy(Take(s, r), r))
  {
    CloseNextLists(s, r);
    assert r in ListOf(s.f, s.f.place[r]);
    CloseMode(s, Destroy(Take(s, r), r));
  }

  /** Teardown empties lists and drops nodes; the detached lists stay as they are. */
  lemma CloseMode(s: State, t: State)
    requires ModeOk(s) && !Open(s.mode) && t.mode == s.mode
    requires t.cancelled == s.cancelled && t.cancelWork == s.cancelWork && t.undrained == s.undrained
    requires forall r <- t.reqs :: r in s.reqs && t.reqs[r] == s.reqs[r]
    requires s.mode.Closing? ==> ListOf(t.f, Work) == []
    requires ListOf(t.f, Root) == ListOf(s.f, Root)
    requires forall id: Id {:trigger Blocked(id)} :: ListOf(t.f, Blocked(id)) == ListOf(s.f, Blocked(id))
    requires s.mode.ClosingNode? ==> s.mode.id in t.g.nodes && Held(t, s.mode.id)
    ensures ModeOk(t)
  {}

  lemma CloseNodeInv(s: State, id: Id)
    requires Inv(s) && s.mode.Closing? && id in s.g.nodes && Kept(s, id)
    ensures Inv(s.(f := Move(s.f, Blocked(id), Work), mode := ClosingNode(id)))
  {
    CloseNodeFiled(s, id);
    CloseNodeTracked(s, id);
    if ListOf(s.f, Blocked(id)) != [] { CloseNodeHeld(s, id, id); }
  }

  lemma ClosingFacts(s: State)
    requires ModeOk(s) && s.mode.ClosingNode? && ListOf(s.f, Work) != []
    ensures s.mode.id in s.g.nodes && Held(s, s.mode.id)
    ensures s.cancelled == [] && s.cancelWork == [] && s.cancelWork + s.cancelled == []
    ensures ListOf(s.f, Root) == [] && ListOf(s.f, Blocked(s.mode.id)) == []
  {}

  lemma CloseWaiterSound(s: State, r: Rid)
    requires Inv(s) && s.mode.ClosingNode? && Head(s, Work, r)
    ensures Sound(Destroy(Abort(Take(s, r), r), r), false) && NoHand(Destroy(Abort(Take(s, r), r), r))
  {
    ClosingFacts(s);
    CloseWaiterKeeps(s, r);
  }

  lemma CloseWaiterMode(s: State, r: Rid)
    requires Inv(s) && s.mode.ClosingNode? && Head(s, Work, r)
    ensures ModeOk(Destroy(Abort(Take(s, r), r), r))
  {
    ClosingFacts(s);
    CloseWaiterShape(s, r, s.mode.id);
    CloseWaiterLists(s, r);
    CloseMode(s, Destroy(Abort(Take(s, r), r), r));
  }

  lemma CloseEraseSound(s: State, id: Id)
    requires Sound(s, false) && id in s.g.nodes && ListOf(s.f, Blocked(id)) == []
    ensures Sound(s.(g := Erase(s.g, id)), false)
  {
    forall r <- s.reqs ensures s.f.place[r] != Blocked(id) {
      assert r !in ListOf(s.f, Blocked(id));
    }
    CloseEraseTracked(s, id);
    GraphFiled(s, Erase(s.g, id));
  }

  lemma CloseEraseInv(s: State)
    requires Inv(s) && s.mode.ClosingNode? && ListOf(s.f, Work) == []
    ensures Inv(s.(g := Erase(s.g, s.mode.id), mode := Closing))
  {
    CloseEraseSound(s, s.mode.id);
    FrameSound(s.(g := Erase(s.g, s.mode.id)), s.(g := Erase(s.g, s.mode.id), mode := Closing), false);
  }

  lemma CloseWaiterInv(s: State, r: Rid)
    requires Inv(s) && s.mode.ClosingNode? && Head(s, Work, r)
    ensures Inv(Destroy(Abort(Take(s, r), r), r))
  {
    CloseWaiterSound(s, r);
    CloseWaiterMode(s, r);
  }

  lemma CloseEventKeeps(s: State, e: Event)
    requires Inv(s) && Enabled(s, e)
    requires e.CloseBegin? || e.CloseNext? || e.CloseNode? || e.CloseWaiter? || e.CloseErase?
    ensures Inv(Apply(s, e))
  {
    if e.CloseBegin? { CloseBeginInv(s); }
    else if e.CloseNext? { PlaceOf(s, e.p, e.r); CloseNextInv(s, e.r); }
    else if e.CloseNode? { CloseNodeInv(s, e.id); }
    else if e.CloseWaiter? { CloseWaiterInv(s, e.r); }
    else { CloseEraseInv(s); }
  }

  lemma EventKeeps(s: State, e: Event)
    requires Inv(s) && Enabled(s, e)
    ensures Inv(Apply(s, e))
  {
    if e.Submit? {
      SubmitEventKeeps(s, e.r, e.q);
    } else if e.Cancel? {
      CancelEventKeeps(s, e.r);
    } else if e.Declare? || e.AddReference? || e.SetAutoRelease? || e.DropReference? {
      ResourceEventKeeps(s, e);
    } else if e.Publish? || e.PublishNext? || e.PublishEnd? {
      PublishEventKeeps(s, e);
    } else if e.TakeLists? || e.DropCancelled? || e.TakeOne? || e.DrainEnd? {
      DrainEventKeeps(s, e);
    } else if e.DetachRate? || e.Scan? || e.MergeOne? || e.ScanEnd? || e.Complete? {
      ScanEventKeeps(s, e);
    } else {
      CloseEventKeeps(s, e);
    }
  }

  lemma {:induction false} RunKeeps(s: State, events: seq<Event>, t: State)
    requires Inv(s) && Run(s, events, t)
    ensures Inv(t)
    decreases events
  {
    if events == [] {
    } else {
      EventKeeps(s, events[0]);
      RunKeeps(Apply(s, events[0]), events[1..], t);
    }
  }

  /** Every reachable state satisfies the invariant. */
  lemma ReachableInv(s: State)
    requires Reachable(s)
    ensures Inv(s)
  {
    var limit: nat, events :| Run(Initial(limit), events, s);
    InitialInv(limit);
    RunKeeps(Initial(limit), events, s);
  }
}
