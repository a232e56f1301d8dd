/**
 Where requests are. Every live request is in exactly one place, the list of a place holds exactly
 the requests there, the multimaps stay sorted, and the loop's bookkeeping agrees with the places.
*/
module Filing {
  import opened Sequences
  import opened LoopState

  ghost predicate Listed(f: Files) {
    forall p: Place ::
      && Distinct(ListOf(f, p))
      && forall r: Rid :: r in ListOf(f, p) <==> r in f.place && f.place[r] == p && p != Hand
  }

  lemma UnfileListed(f: Files, r: Rid)
    requires Listed(f) && r in f.place && f.place[r] != Hand
    ensures Listed(Unfile(f, r))
    ensures forall p: Place {:trigger ListOf(Unfile(f, r), p)} ::
      ListOf(Unfile(f, r), p) == if p == f.place[r] then Without(ListOf(f, p), r) else ListOf(f, p)
  {
    var p := f.place[r];
    assert r in ListOf(f, p);
    WithoutDistinct(ListOf(f, p), r);
    var g := Unfile(f, r);
    assert ListOf(g, p) == Without(ListOf(f, p), r);
    forall q: Place ensures q != p ==> ListOf(g, q) == ListOf(f, q) {}
  }

  lemma FileListed(f: Files, r: Rid, p: Place, pos: nat)
    requires Listed(f) && p != Hand && (r in f.place ==> f.place[r] == Hand)
    ensures Listed(File(f, r, p, pos))
    ensures forall q: Place {:trigger ListOf(File(f, r, p, pos), q)} ::
      q != p ==> ListOf(File(f, r, p, pos), q) == ListOf(f, q)
  {
    var l := ListOf(f, p);
    var g := File(f, r, p, pos);
    assert r !in l;
    InsertDistinct(l, if pos <= |l| then pos else |l|, r);
    forall q: Place ensures q != p ==> ListOf(g, q) == ListOf(f, q) {}
  }

  lemma MoveListed(f: Files, p: Place, q: Place)
    requires Listed(f) && p != q && p != Hand && q != Hand && ListOf(f, q) == []
    ensures Listed(Move(f, p, q))
    ensures forall o: Place {:trigger ListOf(Move(f, p, q), o)} ::
      ListOf(Move(f, p, q), o) == if o == p then [] else if o == q then ListOf(f, p) else ListOf(f, o)
  {
    var g := Move(f, p, q);
    forall o: Place
      ensures ListOf(g, o) == if o == p then [] else if o == q then ListOf(f, p) else ListOf(f, o)
    {}
    forall r: Rid ensures r in f.place ==> f.place[r] != q {
      assert r in ListOf(f, q) <==> r in f.place && f.place[r] == q && q != Hand;
    }
    forall o: Place, r: Rid
      ensures r in ListOf(g, o) <==> r in g.place && g.place[r] == o && o != Hand
    {
      assert r in ListOf(f, o) <==> r in f.place && f.place[r] == o && o != Hand;
      assert r in ListOf(f, p) <==> r in f.place && f.place[r] == p && p != Hand;
    }
  }

  lemma ForgetListed(f: Files, r: Rid)
    requires Listed(f) && r in f.place && f.place[r] == Hand
    ensures Listed(f.(place := f.place - {r}))
    ensures forall p: Place :: ListOf(f.(place := f.place - {r}), p) == ListOf(f, p)
  {
    var g := f.(place := f.place - {r});
    forall p: Place ensures ListOf(g, p) == ListOf(f, p) {}
  }

  // ----- what a place says about the request in it

  /** The retries the default policy has granted never exceed what the request allows. */
  predicate RetriesOk(q: Request) {
    q.policy == DefaultPolicy && !q.refresh && q.maxRetries >= 0 ==> q.granted == q.retries <= q.maxRetries
  }

  predicate Proper(q: Request, p: Place) {
    && (q.attached ==> p in {Queued, RateLimited, Root, Hand})
    && (p == Queued ==> q.attached && q.startTime >= q.key)
    && (p == Inactive ==> !q.refresh)
    && (p == Refresh ==> q.refresh)
    && (q.isPending ==> p in {Pending, Work, Hand})
    && (q.isCancelled && !q.isPending ==> p in {Queued, Inactive, Refresh, Hand})
    && RetriesOk(q)
  }

  predicate ByKey(p: Place) {
    p in {Inactive, Refresh, RateLimited, Root, Queued}
  }

  predicate KeysInOrder(reqs: map<Rid, Request>, a: Rid, b: Rid) {
    a in reqs && b in reqs && reqs[a].key <= reqs[b].key
  }

  ghost predicate KeysSorted(l: seq<Rid>, reqs: map<Rid, Request>) {
    forall i, j :: 0 <= i < j < |l| ==> KeysInOrder(reqs, l[i], l[j])
  }

  ghost predicate Sorted(f: Files, reqs: map<Rid, Request>) {
    forall p: Place :: ByKey(p) ==> KeysSorted(ListOf(f, p), reqs)
  }

  ghost function Attached(reqs: map<Rid, Request>): set<Rid> {
    set r | r in reqs && reqs[r].attached
  }

  /** Cancelled, and not about to be found in the pending list. */
  predicate CancelDue(q: Request) {
    q.isCancelled && !q.isPending
  }

  /** The cancelled lists hold cancelled requests that wait in a multimap, each once; until teardown, all of them. */
  ghost predicate Cancels(s: State)
    requires s.f.place.Keys == s.reqs.Keys
  {
    && Distinct(s.cancelWork + s.cancelled)
    && (forall r <- s.cancelWork + s.cancelled :: r in s.reqs && CancelDue(s.reqs[r]))
    && (Open(s.mode) ==>
          forall r <- s.reqs :: CancelDue(s.reqs[r]) && s.f.place[r] != Hand ==> r in s.cancelWork + s.cancelled)
  }

  /** Each submitted request is live or was destroyed, once. */
  ghost predicate Accounted(s: State) {
    && Distinct(s.destroyed)
    && (forall r: Rid :: r in s.submitted <==> r in s.reqs || r in s.destroyed)
    && (forall r <- s.destroyed :: r !in s.reqs)
    && 0 !in s.reqs
  }

  /** Everything about requests and lists but the cancelled ones; a request in Hand is between two lists. */
  ghost predicate Shelved(s: State) {
    && s.f.place.Keys == s.reqs.Keys == s.hist.Keys
    && Listed(s.f)
    && Sorted(s.f, s.reqs)
    && (forall r <- s.reqs :: Proper(s.reqs[r], s.f.place[r]))
    && |ListOf(s.f, Queued)| <= s.maxConcurrent
    && s.numMulti == |Attached(s.reqs)| + s.leaked
    && Accounted(s)
  }

  ghost predicate Filed(s: State) {
    Shelved(s) && Cancels(s)
  }

  lemma TakeFiled(s: State, r: Rid)
    requires Filed(s) && r in s.reqs && s.f.place[r] != Hand
    ensures Filed(Take(s, r))
  {
    var t := Take(s, r);
    UnfileListed(s.f, r);
    var o := s.f.place[r];
    forall p: Place | ByKey(p) ensures KeysSorted(ListOf(t.f, p), t.reqs) {
      if p == o { WithoutSorted(ListOf(s.f, p), r, s.reqs); }
    }
    assert r in ListOf(s.f, o);
    WithoutDistinct(ListOf(s.f, o), r);
  }

  lemma {:induction false} WithoutSorted(l: seq<Rid>, r: Rid, reqs: map<Rid, Request>)
    requires KeysSorted(l, reqs)
    ensures KeysSorted(Without(l, r), reqs)
    ensures forall x <- Without(l, r) :: x in l
  {
    if l == [] || l[0] == r {
    } else {
      WithoutSorted(l[1..], r, reqs);
      var rest := Without(l[1..], r);
      forall j | 0 <= j < |rest| ensures |l| > 1 && rest[j] in reqs && reqs[l[0]].key <= reqs[rest[j]].key {
        assert rest[j] in rest;
        var i :| 0 <= i < |l[1..]| && l[1..][i] == rest[j];
        assert l[i + 1] == rest[j] && l[0] in reqs;
      }
    }
  }

  /** A change to a request in hand that keeps its flags. */
  lemma HandFiled(s: State, r: Rid, q: Request)
    requires Filed(s) && r in s.reqs && s.f.place[r] == Hand
    requires q.attached == s.reqs[r].attached && RetriesOk(q)
    requires q.isCancelled == s.reqs[r].isCancelled && (q.isPending ==> s.reqs[r].isPending)
    ensures Filed(SetReq(s, r, q))
  {
    var t := SetReq(s, r, q);
    SortedElsewhere(s.f, s.reqs, r, q);
    assert Attached(t.reqs) == Attached(s.reqs);
  }

  lemma SortedElsewhere(f: Files, reqs: map<Rid, Request>, r: Rid, q: Request)
    requires Listed(f) && Sorted(f, reqs) && (r in f.place ==> f.place[r] == Hand)
    ensures Sorted(f, reqs[r := q])
  {
    forall p: Place | ByKey(p) ensures KeysSorted(ListOf(f, p), reqs[r := q]) {
      assert r !in ListOf(f, p);
    }
  }

  lemma PutFiled(s: State, r: Rid, p: Place, pos: nat)
    requires Filed(s) && r in s.reqs && s.f.place[r] == Hand && p != Hand
    requires Proper(s.reqs[r], p)
    requires ByKey(p) ==> Fits(s, p, s.reqs[r].key, pos)
    requires p == Queued ==> |ListOf(s.f, Queued)| < s.maxConcurrent
    requires !CancelDue(s.reqs[r])
    ensures Filed(Put(s, r, p, pos))
    ensures forall q: Place {:trigger ListOf(Put(s, r, p, pos).f, q)} ::
      q != p ==> ListOf(Put(s, r, p, pos).f, q) == ListOf(s.f, q)
  {
    var t := Put(s, r, p, pos);
    FileListed(s.f, r, p, pos);
    forall o: Place | ByKey(o) ensures KeysSorted(ListOf(t.f, o), t.reqs) {
      if o == p { InsertSorted(ListOf(s.f, p), s.reqs, r, pos); }
    }
    assert p != Queued ==> ListOf(t.f, Queued) == ListOf(s.f, Queued);
  }

  lemma InsertSorted(l: seq<Rid>, reqs: map<Rid, Request>, r: Rid, pos: nat)
    requires KeysSorted(l, reqs) && r in reqs && pos <= |l|
    requires forall i :: 0 <= i < pos ==> l[i] in reqs && reqs[l[i]].key <= reqs[r].key
    requires forall i :: pos <= i < |l| ==> l[i] in reqs && reqs[r].key <= reqs[l[i]].key
    ensures KeysSorted(InsertAt(l, pos, r), reqs)
  {
    var m := InsertAt(l, pos, r);
    forall i | 0 <= i < |m| ensures m[i] == if i < pos then l[i] else if i == pos then r else l[i - 1] {}
  }

  /** The handle leaves the multi handle. */
  lemma CleanupFiled(s: State, r: Rid)
    requires Filed(s) && r in s.reqs && s.f.place[r] == Hand
    ensures Filed(Cleanup(s, r)) && !Cleanup(s, r).reqs[r].attached
  {
    var t := Cleanup(s, r);
    if s.reqs[r].attached {
      SortedElsewhere(s.f, s.reqs, r, t.reqs[r]);
      assert Attached(t.reqs) == Attached(s.reqs) - {r};
    }
  }

  /** The handle is dropped while still in the multi handle. */
  lemma DetachFiled(s: State, r: Rid)
    requires Filed(s) && r in s.reqs && s.f.place[r] == Hand
    ensures Filed(Detach(s, r)) && !Detach(s, r).reqs[r].attached
  {
    var t := Detach(s, r);
    if s.reqs[r].attached {
      SortedElsewhere(s.f, s.reqs, r, t.reqs[r]);
      assert Attached(t.reqs) == Attached(s.reqs) - {r};
    }
  }

  lemma AttachFiled(s: State, r: Rid, now: Time)
    requires Filed(s) && r in s.reqs && s.f.place[r] == Hand && !s.reqs[r].attached
    ensures Filed(Attach(s, r, now))
  {
    var t := Attach(s, r, now);
    SortedElsewhere(s.f, s.reqs, r, t.reqs[r]);
    assert Attached(t.reqs) == Attached(s.reqs) + {r};
  }

  lemma ForgetFiled(s: State, r: Rid)
    requires Filed(s) && r in s.reqs && s.f.place[r] == Hand && !s.reqs[r].attached
    requires r !in s.cancelWork + s.cancelled
    ensures Filed(Forget(s, r))
    ensures forall p: Place :: ListOf(Forget(s, r).f, p) == ListOf(s.f, p)
  {
    var t := Forget(s, r);
    ForgetListed(s.f, r);
    forall p: Place | ByKey(p) ensures KeysSorted(ListOf(t.f, p), t.reqs) {
      assert r !in ListOf(s.f, p);
      assert ListOf(t.f, p) == ListOf(s.f, p);
    }
    assert Attached(t.reqs) == Attached(s.reqs);
  }

  lemma DestroyFiled(s: State, r: Rid)
    requires Filed(s) && r in s.reqs && s.f.place[r] == Hand
    requires r !in s.cancelWork + s.cancelled
    ensures Filed(Destroy(s, r))
    ensures forall p: Place :: ListOf(Destroy(s, r).f, p) == ListOf(s.f, p)
  {
    CleanupFiled(s, r);
    ForgetFiled(Cleanup(s, r), r);
  }

  lemma MoveFiled(s: State, p: Place, q: Place)
    requires Filed(s) && p != q && p != Hand && q != Hand && ListOf(s.f, q) == []
    requires p != Queued && q != Queued
    requires forall r <- s.reqs :: s.f.place[r] == p ==> Proper(s.reqs[r], q)
    requires ByKey(p) || !ByKey(q)
    ensures Filed(s.(f := Move(s.f, p, q)))
  {
    var t := s.(f := Move(s.f, p, q));
    MoveListed(s.f, p, q);
    MoveSorted(s.f, p, q, s.reqs);
    assert ListOf(t.f, Queued) == ListOf(s.f, Queued);
    MoveCancels(s, p, q);
    assert Accounted(t);
  }

  lemma MoveSorted(f: Files, p: Place, q: Place, reqs: map<Rid, Request>)
    requires Sorted(f, reqs) && p != q && (ByKey(p) || !ByKey(q))
    ensures Sorted(Move(f, p, q), reqs)
  {
    var h := Move(f, p, q);
    forall o: Place | ByKey(o) ensures KeysSorted(ListOf(h, o), reqs) {
      if o == q { assert ListOf(h, q) == ListOf(f, p); }
      else if o != p { assert ListOf(h, o) == ListOf(f, o); }
    }
  }

  lemma MoveCancels(s: State, p: Place, q: Place)
    requires s.f.place.Keys == s.reqs.Keys && Cancels(s) && p != Hand && q != Hand
    ensures Cancels(s.(f := Move(s.f, p, q)))
  {}

  lemma ArriveListed(f: Files, r: Rid)
    requires Listed(f) && r !in f.place
    ensures Listed(f.(place := f.place[r := Hand]))
    ensures forall p: Place :: ListOf(f.(place := f.place[r := Hand]), p) == ListOf(f, p)
  {
    var g := f.(place := f.place[r := Hand]);
    forall p: Place ensures ListOf(g, p) == ListOf(f, p) && r !in ListOf(f, p) {}
    forall p: Place, x: Rid ensures x in ListOf(g, p) <==> x in g.place && g.place[x] == p && p != Hand {
      assert x in ListOf(f, p) <==> x in f.place && f.place[x] == p && p != Hand;
    }
  }

  /** A newly submitted request is in hand. */
  lemma ArriveFiled(s: State, r: Rid, q: Request)
    requires Filed(s) && r != 0 && r !in s.submitted
    requires q.isPending && !q.isCancelled && !q.attached && RetriesOk(q)
    ensures Filed(Arrive(s, r, q))
  {
    ArriveShelved(s, r, q);
    ArriveCancels(s, r, q);
  }

  lemma ArriveShelved(s: State, r: Rid, q: Request)
    requires Shelved(s) && r != 0 && r !in s.submitted
    requires q.isPending && !q.isCancelled && !q.attached && RetriesOk(q)
    ensures Shelved(Arrive(s, r, q))
  {
    var t := Arrive(s, r, q);
    ArriveListed(s.f, r);
    SortedElsewhere(s.f, s.reqs, r, q);
    SameListing(s.f, t.f, t.reqs);
    assert Attached(t.reqs) == Attached(s.reqs);
    assert Accounted(t);
  }

  lemma SameListing(f: Files, h: Files, reqs: map<Rid, Request>)
    requires Sorted(f, reqs) && forall p: Place :: ListOf(h, p) == ListOf(f, p)
    ensures Sorted(h, reqs) && |ListOf(h, Queued)| == |ListOf(f, Queued)|
  {}

  lemma ArriveCancels(s: State, r: Rid, q: Request)
    requires s.f.place.Keys == s.reqs.Keys && Cancels(s) && r !in s.reqs && q.isPending
    ensures Cancels(Arrive(s, r, q))
  {
    assert r !in s.cancelWork + s.cancelled;
  }

  lemma SortedSameKey(f: Files, reqs: map<Rid, Request>, r: Rid, q: Request)
    requires Sorted(f, reqs) && r in reqs && q.key == reqs[r].key
    ensures Sorted(f, reqs[r := q])
  {
    forall p: Place | ByKey(p) ensures KeysSorted(ListOf(f, p), reqs[r := q]) {
      SameKeys(ListOf(f, p), reqs, reqs[r := q]);
    }
  }

  lemma SameKeys(l: seq<Rid>, reqs: map<Rid, Request>, after: map<Rid, Request>)
    requires KeysSorted(l, reqs) && forall x <- reqs :: x in after && after[x].key == reqs[x].key
    ensures KeysSorted(l, after)
  {
    forall i, j | 0 <= i < j < |l| ensures KeysInOrder(after, l[i], l[j]) {
      assert KeysInOrder(reqs, l[i], l[j]);
    }
  }

  lemma FlagShelved(s: State, r: Rid)
    requires Shelved(s) && r in s.reqs
    requires s.reqs[r].isPending || s.f.place[r] in {Queued, Inactive, Refresh}
    ensures Shelved(SetReq(s, r, s.reqs[r].(isCancelled := true)))
  {
    var t := SetReq(s, r, s.reqs[r].(isCancelled := true));
    assert Attached(t.reqs) == Attached(s.reqs);
    SortedSameKey(s.f, s.reqs, r, t.reqs[r]);
    assert Proper(s.reqs[r], s.f.place[r]) && Proper(t.reqs[r], t.f.place[r]);
    assert t.f == s.f && t.reqs.Keys == s.reqs.Keys && Accounted(t);
  }

  lemma CancelListed(s: State, r: Rid)
    requires s.f.place.Keys == s.reqs.Keys && Cancels(s)
    requires r in s.reqs && !s.reqs[r].isCancelled && !s.reqs[r].isPending
    ensures Cancels(SetReq(s, r, s.reqs[r].(isCancelled := true)).(cancelled := [r] + s.cancelled))
  {
    var l := s.cancelWork + s.cancelled;
    assert r !in l;
    InsertDistinct(l, |s.cancelWork|, r);
    assert s.cancelWork + ([r] + s.cancelled) == InsertAt(l, |s.cancelWork|, r);
  }

  lemma CancelFiled(s: State, r: Rid)
    requires Filed(s) && r in s.reqs && !s.reqs[r].isCancelled
    requires s.reqs[r].isPending || s.f.place[r] in {Queued, Inactive, Refresh}
    ensures var t := SetReq(s, r, s.reqs[r].(isCancelled := true));
      Filed(if s.reqs[r].isPending then t else t.(cancelled := [r] + s.cancelled))
  {
    FlagShelved(s, r);
    if !s.reqs[r].isPending {
      CancelListed(s, r);
    }
  }
}
