/**
 What each event does, told from the event's own fields and the lists before it: where the request
 ends up, when it is due, and what became of it.
*/
module EventOutcomes {
  import opened Sequences
  import opened LoopState
  import opened LoopSteps
  import opened Filing
  import opened Counting
  import opened LoopInvariant
  import opened LoopEvents
  import opened LoopRuns
  import opened LoopTheorems
  import PublishSafety

  const SECOND := 1_000_000_000

  /** `r` is in the list of `p`, and due exactly from `key` on. */
  ghost predicate WaitsIn(s: State, r: Rid, p: Place, key: Time) {
    r in s.reqs && r in ListOf(s.f, p) && forall now: Time :: Due(s, r, now) <==> now >= key
  }

  /** `r` has been destroyed, once. */
  predicate Gone(s: State, t: State, r: Rid) {
    r !in t.reqs && t.destroyed == s.destroyed + [r]
  }

  lemma PutThere(s: State, r: Rid, p: Place, pos: nat)
    requires r in s.reqs
    ensures WaitsIn(Put(s, r, p, pos), r, p, s.reqs[r].key) && Put(s, r, p, pos).reqs == s.reqs
  {
    var l := ListOf(s.f, p);
    var at := if pos <= |l| then pos else |l|;
    assert InsertAt(l, at, r)[at] == r;
    assert ListOf(Put(s, r, p, pos).f, p) == InsertAt(l, at, r);
  }

  lemma DestroyGone(s: State, r: Rid)
    requires r in s.reqs
    ensures Gone(s, Destroy(s, r), r)
  {
    DestroyedReqs(s, r);
  }

  // ----- a finished transfer

  /** The multimap of requests that are not rate-limited. */
  function Home(q: Request): Place {
    if q.refresh then Refresh else Inactive
  }

  /** What the request's callback answered; a failed transfer without on_failure counts as a negative answer. */
  predicate AnswersPositive(q: Request, c: Completion) {
    (c.ok || q.onFailure) && c.answer > 0
  }

  predicate AnswersNegative(q: Request, c: Completion) {
    if c.ok || q.onFailure then c.answer < 0 else true
  }

  /** The retry policy lets it go on: the default one while the limit is -1 or not reached, an own one if it says so. */
  predicate MayRetry(q: Request, c: Completion) {
    || (q.policy == DefaultPolicy && (q.maxRetries == -1 || q.maxRetries > q.retries))
    || (q.policy == OwnPolicy && c.again)
  }

  /**
   A transfer has finished. A 429 on a rate limit sends the request to the rate-limited multimap for the
   backoff. A positive answer sends it home for that many seconds; a negative one sends it home until the
   time the policy sets, if the policy grants the retry. Else it goes home as it was if it refreshes, its
   retries forgotten, or it is destroyed.
  */
  lemma CompletionOutcome(s: State, r: Rid, c: Completion)
    requires Enabled(s, Complete(r, c))
    ensures var q, t := s.reqs[r], Apply(s, Complete(r, c));
      if c.tooMany && q.rateLimited then
        WaitsIn(t, r, RateLimited, c.now + c.backoff * SECOND) && t.reqs[r].attached == q.attached
      else if AnswersPositive(q, c) then
        WaitsIn(t, r, Home(q), c.now + c.answer * SECOND) && !t.reqs[r].attached && t.reqs[r].retries == q.retries
      else if AnswersNegative(q, c) && MayRetry(q, c) then
        && WaitsIn(t, r, Home(q), c.newKey) && !t.reqs[r].attached
        && t.reqs[r].retries == q.retries + if q.policy == DefaultPolicy then 1 else 0
      else if q.refresh then
        WaitsIn(t, r, Refresh, q.key) && !t.reqs[r].attached && t.reqs[r].retries == 0
      else
        Gone(s, t, r)
  {
    match OutcomeOf(s.reqs[r], c)
    case TooMany => RefusedTransfer(s, r, c);
    case Finished => FinishedTransfer(s, r, c);
    case _ => RefiledTransfer(s, r, c);
  }

  lemma RefusedTransfer(s: State, r: Rid, c: Completion)
    requires r in s.reqs && r in s.f.place && OutcomeOf(s.reqs[r], c) == TooMany
    ensures var t := DoComplete(s, r, c);
      WaitsIn(t, r, RateLimited, c.now + c.backoff * SECOND) && t.reqs[r].attached == s.reqs[r].attached
  {
    PutThere(SetReq(Take(s, r), r, Completed(s.reqs[r], c)), r, RateLimited, c.pos);
  }

  lemma FinishedTransfer(s: State, r: Rid, c: Completion)
    requires r in s.reqs && r in s.f.place && OutcomeOf(s.reqs[r], c) == Finished
    ensures Gone(s, DoComplete(s, r, c), r)
  {
    DestroyGone(SetReq(Take(s, r), r, Completed(s.reqs[r], c)), r);
  }

  lemma RefiledTransfer(s: State, r: Rid, c: Completion)
    requires r in s.reqs && r in s.f.place && OutcomeOf(s.reqs[r], c) in {Later, Retry, Again}
    ensures var q, t := s.reqs[r], DoComplete(s, r, c);
      WaitsIn(t, r, Home(q), NewKey(q, c)) && !t.reqs[r].attached && t.reqs[r].retries == NewRetries(q, c)
  {
    var q := s.reqs[r];
    PutThere(Cleanup(SetReq(Take(s, r), r, Completed(q, c)), r), r, EnqueuePlace(q), c.pos);
  }

  // ----- a start

  /** The start of a request in no list: refused for its rate limit, destroyed, or launched. */
  ghost predicate Begun(s: State, t: State, r: Rid, l: Launch)
    requires r in s.reqs
  {
    if s.reqs[r].rateLimited && l.wait > 0 then WaitsIn(t, r, RateLimited, l.wait)
    else if !l.prepared then Gone(s, t, r)
    else
      && WaitsIn(t, r, Queued, s.reqs[r].key) && t.reqs[r].attached && t.reqs[r].startTime == l.now
      && t.numMulti == s.numMulti + 1
  }

  lemma StartOutcome(s: State, r: Rid, l: Launch)
    requires r in s.reqs
    ensures Begun(s, Start(s, r, l), r, l)
  {
    if Refused(s.reqs[r], l) {
      PutThere(Rekey(s, r, l.wait), r, RateLimited, l.pos);
    } else if !l.prepared {
      DestroyGone(Detach(s, r), r);
    } else {
      PutThere(Attach(Detach(s, r), r, l.now), r, Queued, l.pos);
    }
  }

  /** A slot is free, the rate limit lets it pass, and the time has come. */
  predicate Clear(s: State, r: Rid, poll: nat, now: Time)
    requires r in s.reqs
  {
    |ListOf(s.f, Queued)| < s.maxConcurrent && (s.reqs[r].rateLimited ==> poll == 0) && now >= s.reqs[r].key
  }

  /**
   One turn of a scan. A request that its rate limit turns away is rate-limited for the wait it was told;
   else it is started if a slot is free, the second poll lets it pass and the time has come, and the
   scan stops before it if not.
  */
  lemma ScanOutcome(s: State, e: Event)
    requires Reachable(s) && Enabled(s, e) && e.Scan?
    ensures e.r in s.reqs
    ensures var r, t := e.r, Apply(s, e);
      if s.reqs[r].rateLimited && e.first > 0 then WaitsIn(t, r, RateLimited, e.firstNow + e.first)
      else if Clear(s, r, e.poll, e.now) then Begun(s, t, r, e.launch)
      else t == s
  {
    var r := e.r;
    HeadMet(s, e.p, r);
    if s.reqs[r].rateLimited && e.first > 0 {
      PutThere(Rekey(Take(s, r), r, e.firstNow + e.first), r, RateLimited, e.launch.pos);
    } else if Ready(s, r, e.poll, e.now) {
      StartOutcome(Take(s, r), r, e.launch);
    }
  }

  lemma HeadMet(s: State, p: Place, r: Rid)
    requires Reachable(s) && Open(s.mode) && Head(s, p, r) && ByKey(p)
    ensures FirstUnmet(s.g, s.reqs[r].deps) == None
  {
    ListFacts(s, p, r);
    SecondCheckPasses(s, r);
  }

  // ----- a request taken from the pending list

  /** All the dependencies before the `i`-th are met, and that one is not. */
  predicate FirstUnmetAt(g: Graph, ds: seq<Id>, i: nat) {
    i < |ds| && !Resolved(g, ds[i]) && forall j :: 0 <= j < i ==> Resolved(g, ds[j])
  }

  lemma {:induction false} FirstUnmetIs(g: Graph, ds: seq<Id>, i: nat)
    requires FirstUnmetAt(g, ds, i)
    ensures FirstUnmet(g, ds) == Some(ds[i])
    decreases ds
  {
    if i == 0 {
    } else {
      assert ds[0] == ds[..i][0] && ds[1..][i - 1] == ds[i];
      assert forall j :: 0 <= j < i - 1 ==> ds[1..][j] == ds[j + 1];
      FirstUnmetIs(g, ds[1..], i - 1);
    }
  }

  lemma {:induction false} AllMet(g: Graph, ds: seq<Id>)
    requires forall d <- ds :: Resolved(g, d)
    ensures FirstUnmet(g, ds) == None
    decreases ds
  {
    if ds == [] {
    } else {
      AllMet(g, ds[1..]);
    }
  }

  lemma {:induction false} RetainSameStatus(g: Graph, ds: seq<Id>)
    ensures forall id: Id :: Resolved(RetainDeps(g, ds), id) == Resolved(g, id)
    decreases ds
  {
    if ds == [] {
    } else {
      var h := RetainDep(g, ds[0]);
      forall id: Id ensures Resolved(h, id) == Resolved(g, id) {}
      RetainSameStatus(h, ds[1..]);
    }
  }

  lemma {:induction false} SomeFirst(g: Graph, ds: seq<Id>) returns (i: nat)
    requires exists d <- ds :: !Resolved(g, d)
    ensures FirstUnmetAt(g, ds, i)
    decreases ds
  {
    if !Resolved(g, ds[0]) {
      i := 0;
    } else {
      var d :| d in ds && !Resolved(g, d);
      assert d in ds[1..];
      var k := SomeFirst(g, ds[1..]);
      i := k + 1;
      forall j | 0 <= j < i ensures Resolved(g, ds[j]) {
        if j > 0 { assert ds[1..][j - 1] == ds[j]; }
      }
    }
  }

  /** The request as the check of its dependencies finds it: off the snapshot, no longer pending, pinned. */
  lemma TakenShape(s: State, r: Rid)
    requires r in s.reqs && r in s.f.place && s.f.place[r] == Work && r in s.hist
    ensures var u, q := Retain(Taken(s, r), r), s.reqs[r];
      && r in u.reqs && u.reqs[r] == q.(isPending := false, retained := q.retained || q.deps != [])
      && u.numMulti == s.numMulti && u.destroyed == s.destroyed && u.maxConcurrent == s.maxConcurrent
      && r in u.hist
      && (forall p: Place {:trigger ListOf(u.f, p)} :: p != Work ==> ListOf(u.f, p) == ListOf(s.f, p))
      && (forall id: Id :: Resolved(u.g, id) == Resolved(s.g, id))
  {
    RetainSameStatus(s.g, s.reqs[r].deps);
  }

  /** Where a request ends up whose dependencies are looked at now. */
  ghost predicate Admitted(s: State, t: State, r: Rid, poll: nat, now: Time, l: Launch)
    requires r in s.reqs
  {
    var q := s.reqs[r];
    if exists d <- q.deps :: !Resolved(s.g, d) then
      exists i: nat :: FirstUnmetAt(s.g, q.deps, i)
        && ListOf(t.f, Blocked(q.deps[i])) == ListOf(s.f, Blocked(q.deps[i])) + [r]
    else if Clear(s, r, poll, now) then Begun(s, t, r, l)
    else WaitsIn(t, r, Home(q), q.key)
  }

  lemma AdmitOutcome(s: State, r: Rid, poll: nat, now: Time, l: Launch)
    requires r in s.reqs && r in s.hist
    ensures Admitted(s, Admit(s, r, poll, now, l), r, poll, now, l)
  {
    var q, t := s.reqs[r], Admit(s, r, poll, now, l);
    if exists d <- q.deps :: !Resolved(s.g, d) {
      var i := SomeFirst(s.g, q.deps);
      FirstUnmetIs(s.g, q.deps, i);
      var list := ListOf(s.f, Blocked(q.deps[i]));
      assert InsertAt(list, |list|, r) == list + [r];
      assert ListOf(t.f, Blocked(q.deps[i])) == list + [r];
    } else {
      AllMet(s.g, q.deps);
      if Ready(s, r, poll, now) { StartOutcome(s, r, l); } else { PutThere(s, r, EnqueuePlace(q), l.pos); }
    }
  }

  lemma SameAdmitted(s: State, u: State, t: State, r: Rid, poll: nat, now: Time, l: Launch)
    requires r in s.reqs && r in u.reqs && Admitted(u, t, r, poll, now, l)
    requires u.reqs[r] == s.reqs[r].(isPending := false, retained := u.reqs[r].retained)
    requires u.numMulti == s.numMulti && u.destroyed == s.destroyed && u.maxConcurrent == s.maxConcurrent
    requires forall p: Place {:trigger ListOf(u.f, p)} :: p != Work ==> ListOf(u.f, p) == ListOf(s.f, p)
    requires forall id: Id :: Resolved(u.g, id) == Resolved(s.g, id)
    ensures Admitted(s, t, r, poll, now, l)
  {
    var q := s.reqs[r];
    if exists d <- q.deps :: !Resolved(s.g, d) {
      var i: nat :| FirstUnmetAt(u.g, q.deps, i)
        && ListOf(t.f, Blocked(q.deps[i])) == ListOf(u.f, Blocked(q.deps[i])) + [r];
      assert FirstUnmetAt(s.g, q.deps, i);
      assert ListOf(u.f, Blocked(q.deps[i])) == ListOf(s.f, Blocked(q.deps[i]));
    }
  }

  /**
   A request taken from the pending snapshot. Cancelled, it is destroyed. Else it is blocked, behind all
   others, on the first dependency that is not met; if all are met it is started, if a slot is free, the
   rate limit lets it pass and the time has come; and if not it is filed at home under the same time.
  */
  lemma TakeOneOutcome(s: State, r: Rid, poll: nat, now: Time, l: Launch)
    requires Reachable(s) && Enabled(s, TakeOne(r, poll, now, l))
    ensures var t := Apply(s, TakeOne(r, poll, now, l));
      if s.reqs[r].isCancelled then Gone(s, t, r) else Admitted(s, t, r, poll, now, l)
  {
    ListFacts(s, Work, r);
    if s.reqs[r].isCancelled {
      DestroyGone(Taken(s, r), r);
    } else {
      var u := Retain(Taken(s, r), r);
      TakenShape(s, r);
      AdmitOutcome(u, r, poll, now, l);
      SameAdmitted(s, u, Admit(u, r, poll, now, l), r, poll, now, l);
    }
  }

  // ----- submit, cancel and the drain of cancels

  /** A submitted request is first in the pending list, with nothing done for it yet; no other list changes. */
  lemma SubmitOutcome(s: State, r: Rid, q: Request)
    requires Enabled(s, Submit(r, q))
    ensures var t := Apply(s, Submit(r, q));
      && ListOf(t.f, Pending) == [r] + ListOf(s.f, Pending) && r in t.reqs && t.reqs - {r} == s.reqs - {r}
      && (forall p: Place {:trigger ListOf(t.f, p)} :: p != Pending ==> ListOf(t.f, p) == ListOf(s.f, p))
      && t.reqs[r].isPending && !t.reqs[r].isCancelled && !t.reqs[r].retained && !t.reqs[r].attached
      && t.reqs[r].retries == 0 && t.reqs[r].key == q.key && t.reqs[r].deps == q.deps
  {}

  /** A cancelled request is flagged where it is, and first in the cancelled list unless it is pending. */
  lemma CancelOutcome(s: State, r: Rid)
    requires Enabled(s, Cancel(r))
    ensures var t := Apply(s, Cancel(r));
      && r in t.reqs && t.reqs[r].isCancelled && t.reqs - {r} == s.reqs - {r} && t.f == s.f
      && t.cancelled == (if s.reqs[r].isPending then [] else [r]) + s.cancelled
  {
    assert [] + s.cancelled == s.cancelled;
  }

  /** The drain takes both shared lists over whole. */
  lemma TakeListsOutcome(s: State)
    requires Reachable(s) && Enabled(s, TakeLists)
    ensures var t := Apply(s, TakeLists);
      && ListOf(t.f, Work) == ListOf(s.f, Pending) && ListOf(t.f, Pending) == []
      && t.cancelWork == s.cancelled && t.cancelled == [] && t.reqs == s.reqs
  {
    ReachableInv(s);
    MoveListed(s.f, Pending, Work);
  }

  /** It destroys the cancelled requests one by one, last cancelled first, and calls nobody's on_failure. */
  lemma DropCancelledOutcome(s: State, r: Rid)
    requires Enabled(s, DropCancelled(r))
    ensures var t := Apply(s, DropCancelled(r));
      Gone(s, t, r) && s.cancelWork == [r] + t.cancelWork && t.failures == s.failures
  {
    DestroyGone(Take(s, r).(cancelWork := s.cancelWork[1..]), r);
  }

  // ----- references and auto-release

  /** Dropping a reference just added leaves the node as it was, and frees one that nobody had a reference to. */
  lemma AddThenDrop(g: Graph, id: Id)
    ensures var h := Release(Addref(g, id), id);
      if id in g.nodes && g.nodes[id].refcnt != 0
      then h.nodes == g.nodes && Client(h, id) == Client(g, id) && h.cleaned == g.cleaned
      else h.nodes == g.nodes - {id}
  {
    var h := Release(Addref(g, id), id);
    if id in g.nodes && g.nodes[id].refcnt != 0 {
      assert h.nodes[id] == g.nodes[id];
    }
  }

  /** A caller's first reference on an unknown id makes it the owner of a node with one reference. */
  lemma FirstReference(g: Graph, id: Id)
    requires id !in g.nodes
    ensures var h := Addref(g, id);
      && id in h.nodes && h.nodes[id].refcnt == 1 && h.nodes[id].payload == None
      && !h.nodes[id].failed && !h.nodes[id].autoRelease && Client(h, id) == Client(g, id) + 1
  {}

  /**
   Whether a request's end takes the node with it that it alone still pins: exactly when auto-release was
   last switched on, not off, the owner's is the only other reference, and nobody is blocked on the node.
  */
  lemma AutoReleaseIff(s: State, id: Id, enable: bool, r: Rid)
    requires Reachable(s) && Enabled(s, SetAutoRelease(id, enable)) && id in s.g.nodes
    requires r in s.reqs && id in PinnedDeps(s.reqs[r])
    ensures var t := Apply(s, SetAutoRelease(id, enable));
      id !in Destroy(t, r).g.nodes <==>
        enable && ListOf(s.f, Blocked(id)) == [] && Client(s.g, id) == 1 && id !in Pins(s.reqs - {r})
  {
    var t := Apply(s, SetAutoRelease(id, enable));
    RefcountsExact(s, id);
    PinsRemove(s.reqs, r);
    PublishSafety.ReleaseTracks(t.g, t.f, PinnedDeps(s.reqs[r]), id);
    assert Pins(s.reqs)[id] == PublishSafety.Times(PinnedDeps(s.reqs[r]), id) + Pins(s.reqs - {r})[id];
  }
}
