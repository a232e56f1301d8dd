/**
 The invariant of the whole loop, and the proof that every event keeps it.
*/
module LoopInvariant {
  import opened Sequences
  import opened LoopState
  import opened LoopSteps
  import opened Filing
  import opened Counting
  import opened Waiting

  /** What the loop thread's position in the code says about the detached lists. */
  ghost predicate ModeOk(s: State) {
    && (!s.mode.Draining? ==> s.cancelWork == [])
    && (s.mode.Running? || s.mode.Scanning? || s.mode.Closing? ==> ListOf(s.f, Work) == [])
    && (!s.mode.Scanning? ==> ListOf(s.f, Root) == [])
    && (s.mode.Publishing? ==> forall r <- ListOf(s.f, Work) ::
          r in s.reqs && r in s.hist && s.mode.id in s.hist[r] && !s.reqs[r].isPending)
    && (!Open(s.mode) ==> s.cancelled == [] && forall r <- s.undrained :: r in s.reqs ==> CancelDue(s.reqs[r]))
    && (s.mode.ClosingNode? ==>
          && s.mode.id in s.g.nodes && ListOf(s.f, Blocked(s.mode.id)) == []
          && (ListOf(s.f, Work) != [] ==> Held(s, s.mode.id)))
  }

  /** Only `r` may be in hand. */
  ghost predicate OnlyHand(s: State, r: Rid) {
    forall x <- s.f.place :: s.f.place[x] == Hand ==> x == r
  }

  ghost predicate NoHand(s: State) {
    forall x <- s.f.place :: s.f.place[x] != Hand
  }

  ghost predicate Inv(s: State) {
    Filed(s) && Tracked(s, Open(s.mode)) && ModeOk(s) && NoHand(s)
  }

  /** Both halves of the invariant that survive while a request is in hand. */
  ghost predicate Sound(s: State, open: bool) {
    Filed(s) && Tracked(s, open)
  }

  lemma InitialInv(limit: nat)
    ensures Inv(Initial(limit))
  {
    assert Attached(Initial(limit).reqs) == {};
  }

  lemma PlaceOf(s: State, p: Place, r: Rid)
    requires Filed(s) && r in ListOf(s.f, p)
    ensures r in s.reqs && s.f.place[r] == p && p != Hand
  {}

  lemma TakeSound(s: State, r: Rid, open: bool)
    requires Sound(s, open) && NoHand(s) && r in s.reqs && !s.f.place[r].Blocked?
    ensures var t := Take(s, r);
      && Sound(t, open) && OnlyHand(t, r) && t.f.place[r] == Hand
      && forall p: Place {:trigger ListOf(t.f, p)} ::
           ListOf(t.f, p) == if p == s.f.place[r] then Without(ListOf(s.f, p), r) else ListOf(s.f, p)
  {
    TakeFiled(s, r);
    TakeTracked(s, r, open);
    UnfileListed(s.f, r);
  }

  lemma PutSound(s: State, r: Rid, p: Place, pos: nat, open: bool)
    requires Sound(s, open) && OnlyHand(s, r) && r in s.reqs && s.f.place[r] == Hand && p != Hand
    requires Proper(s.reqs[r], p) && Waits(s.g, s.reqs[r], p, s.hist[r], open)
    requires ByKey(p) ==> Fits(s, p, s.reqs[r].key, pos)
    requires p == Queued ==> |ListOf(s.f, Queued)| < s.maxConcurrent
    requires !CancelDue(s.reqs[r])
    ensures var t := Put(s, r, p, pos);
      && Sound(t, open) && NoHand(t)
      && forall q: Place {:trigger ListOf(t.f, q)} :: q != p ==> ListOf(t.f, q) == ListOf(s.f, q)
  {
    PutFiled(s, r, p, pos);
    PutTracked(s, r, p, pos, open);
  }

  lemma DestroySound(s: State, r: Rid, open: bool)
    requires Sound(s, open) && OnlyHand(s, r) && r in s.reqs && s.f.place[r] == Hand
    requires r !in s.cancelWork + s.cancelled
    ensures var t := Destroy(s, r);
      && Sound(t, open) && NoHand(t) && Shrunk(s.g, t.g, Pins(t.reqs))
      && forall p: Place {:trigger ListOf(t.f, p)} :: ListOf(t.f, p) == ListOf(s.f, p)
  {
    DestroyFiled(s, r);
    DestroyTracked(s, r, open);
  }

  lemma HandSound(s: State, r: Rid, q: Request, open: bool)
    requires Sound(s, open) && r in s.reqs && s.f.place[r] == Hand
    requires q.attached == s.reqs[r].attached && RetriesOk(q)
    requires q.isCancelled == s.reqs[r].isCancelled && (q.isPending ==> s.reqs[r].isPending)
    requires q.deps == s.reqs[r].deps && q.retained == s.reqs[r].retained
    ensures Sound(SetReq(s, r, q), open)
  {
    HandFiled(s, r, q);
    SetTracked(s, r, q, open);
  }

  /** A request passed the dependency check for good. */
  ghost predicate Passed(s: State, r: Rid) {
    && r in s.reqs && r in s.hist
    && Waits(s.g, s.reqs[r], Inactive, s.hist[r], true)
  }

  /** What a start, an enqueue or a completion needs: `r` in hand, live, not pending, not cancelled. */
  ghost predicate Movable(s: State, r: Rid) {
    && Sound(s, true) && OnlyHand(s, r) && Passed(s, r) && s.f.place[r] == Hand
    && !s.reqs[r].isPending && !s.reqs[r].isCancelled
  }

  /** The move settles `r` and touches only multimaps outside the detached lists. */
  ghost predicate SettledFrom(s: State, t: State) {
    && Sound(t, true) && NoHand(t)
    && t.mode == s.mode && t.cancelled == s.cancelled && t.cancelWork == s.cancelWork
    && (forall p: Place {:trigger ListOf(t.f, p)} :: p in {Pending, Work, Root} ==> ListOf(t.f, p) == ListOf(s.f, p))
  }

  /** Filing `r`, which has passed the check, in a multimap. */
  lemma PutSettled(s: State, t: State, r: Rid, p: Place, key: Time, pos: nat)
    requires Sound(t, true) && OnlyHand(t, r) && r in t.reqs && t.f.place[r] == Hand
    requires t.f == s.f && t.mode == s.mode && t.cancelled == s.cancelled && t.cancelWork == s.cancelWork
    requires t.maxConcurrent == s.maxConcurrent && t.reqs[r].key == key
    requires p in {Inactive, Refresh, RateLimited, Queued}
    requires Proper(t.reqs[r], p) && Waits(t.g, t.reqs[r], p, t.hist[r], true) && !CancelDue(t.reqs[r])
    requires Fits(t, p, key, pos)
    requires p == Queued ==> |ListOf(s.f, Queued)| < s.maxConcurrent
    ensures SettledFrom(s, Put(t, r, p, pos))
  {
    PutSound(t, r, p, pos, true);
  }

  /** A request in hand is in no list, so changing it changes no position. */
  lemma FitsElsewhere(s: State, t: State, r: Rid, p: Place, key: Time, pos: nat)
    requires Listed(s.f) && r in s.f.place && s.f.place[r] == Hand && Fits(s, p, key, pos)
    requires t.f == s.f && r in t.reqs && t.reqs == s.reqs[r := t.reqs[r]]
    ensures Fits(t, p, key, pos)
  {
    assert r !in ListOf(s.f, p);
  }

  lemma PassedWaits(g: Graph, q: Request, q': Request, p: Place, h: seq<Id>)
    requires Waits(g, q, Inactive, h, true) && ByKey(p) && q'.deps == q.deps && q'.retained == q.retained
    ensures Waits(g, q', p, h, true)
  {
    forall d <- h ensures Resolved(g, d) {}
  }

  lemma RefiledSettled(s: State, r: Rid, key: Time, pos: nat)
    requires Movable(s, r) && Fits(s, RateLimited, key, pos)
    ensures SettledFrom(s, Put(Rekey(s, r, key), r, RateLimited, pos))
  {
    var t := Rekey(s, r, key);
    FitsElsewhere(s, t, r, RateLimited, key, pos);
    PassedWaits(s.g, s.reqs[r], t.reqs[r], RateLimited, s.hist[r]);
    HandSound(s, r, t.reqs[r], true);
    PutSettled(s, t, r, RateLimited, key, pos);
  }

  /** The new handle is in the multi handle, and an old one is left behind. */
  lemma AttachSound(s: State, r: Rid, now: Time)
    requires Sound(s, true) && r in s.reqs && s.f.place[r] == Hand
    ensures Sound(Attach(Detach(s, r), r, now), true)
  {
    var s1 := Detach(s, r);
    DetachFiled(s, r);
    SetTracked(s, r, s1.reqs[r], true);
    AttachFiled(s1, r, now);
    SetTracked(s1, r, Attach(s1, r, now).reqs[r], true);
  }

  lemma AttachShape(s: State, r: Rid, now: Time)
    requires r in s.reqs
    ensures var t := Attach(Detach(s, r), r, now);
      && t.reqs == s.reqs[r := s.reqs[r].(attached := true, startTime := now)]
      && t == s.(reqs := t.reqs, numMulti := t.numMulti, leaked := t.leaked)
  {}

  lemma LaunchedSettled(s: State, r: Rid, l: Launch)
    requires Movable(s, r) && LaunchFits(s, s.reqs[r], l) && !Refused(s.reqs[r], l) && l.prepared
    requires |ListOf(s.f, Queued)| < s.maxConcurrent && l.now >= s.reqs[r].key
    ensures SettledFrom(s, Start(s, r, l))
  {
    var t := Attach(Detach(s, r), r, l.now);
    AttachShape(s, r, l.now);
    AttachSound(s, r, l.now);
    FitsElsewhere(s, t, r, Queued, s.reqs[r].key, l.pos);
    PassedWaits(s.g, s.reqs[r], t.reqs[r], Queued, s.hist[r]);
    PutSettled(s, t, r, Queued, s.reqs[r].key, l.pos);
  }

  lemma UnpreparedSettled(s: State, r: Rid, l: Launch)
    requires Movable(s, r) && !Refused(s.reqs[r], l) && !l.prepared
    ensures SettledFrom(s, Start(s, r, l))
  {
    var s1 := Detach(s, r);
    DetachFiled(s, r);
    SetTracked(s, r, s1.reqs[r], true);
    DestroySound(s1, r, true);
  }

  /** A started request is queued, refused by the rate manager, or destroyed. */
  lemma StartSettled(s: State, r: Rid, l: Launch)
    requires Movable(s, r) && LaunchFits(s, s.reqs[r], l)
    requires |ListOf(s.f, Queued)| < s.maxConcurrent && l.now >= s.reqs[r].key
    ensures SettledFrom(s, Start(s, r, l))
  {
    if Refused(s.reqs[r], l) { RefiledSettled(s, r, l.wait, l.pos); }
    else if l.prepared { LaunchedSettled(s, r, l); }
    else { UnpreparedSettled(s, r, l); }
  }

  lemma EnqueuedSettled(s: State, r: Rid, pos: nat)
    requires Movable(s, r) && !s.reqs[r].attached
    requires Fits(s, EnqueuePlace(s.reqs[r]), s.reqs[r].key, pos)
    ensures SettledFrom(s, Put(s, r, EnqueuePlace(s.reqs[r]), pos))
  {
    PutSound(s, r, EnqueuePlace(s.reqs[r]), pos, true);
  }
}
