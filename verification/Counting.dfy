/**
 Reference counts. A node's count is the references callers hold plus one for each time a live,
 retained request names it, and a node with such pins is never erased.
*/
module Counting {
  import opened Sequences
  import opened LoopState

  /** Every dependency entry of the live, retained requests. */
  ghost function Pins(reqs: map<Rid, Request>): multiset<Id>
    decreases |reqs|
  {
    if reqs == map[] then multiset{}
    else
      var r :| r in reqs;
      multiset(PinnedDeps(reqs[r])) + Pins(reqs - {r})
  }

  lemma EraseSwap<K, V>(m: map<K, V>, a: K, b: K)
    ensures m - {a} - {b} == m - {b} - {a}
  {}

  lemma Swap<T>(a: multiset<T>, b: multiset<T>, c: multiset<T>)
    ensures a + (b + c) == b + (a + c)
  {}

  lemma {:induction false} PinsRemove(reqs: map<Rid, Request>, r: Rid)
    requires r in reqs
    ensures Pins(reqs) == multiset(PinnedDeps(reqs[r])) + Pins(reqs - {r})
    decreases |reqs|
  {
    var c :| c in reqs && Pins(reqs) == multiset(PinnedDeps(reqs[c])) + Pins(reqs - {c});
    if c == r {
    } else {
      PinsRemove(reqs - {c}, r);
      PinsRemove(reqs - {r}, c);
      EraseSwap(reqs, c, r);
      Swap(multiset(PinnedDeps(reqs[c])), multiset(PinnedDeps(reqs[r])), Pins(reqs - {c} - {r}));
    }
  }

  lemma PinsAdd(reqs: map<Rid, Request>, r: Rid, q: Request)
    requires r !in reqs
    ensures Pins(reqs[r := q]) == Pins(reqs) + multiset(PinnedDeps(q))
  {
    PinsRemove(reqs[r := q], r);
    assert reqs[r := q] - {r} == reqs;
  }

  lemma PinsSet(reqs: map<Rid, Request>, r: Rid, q: Request)
    requires r in reqs
    ensures Pins(reqs[r := q]) + multiset(PinnedDeps(reqs[r])) == Pins(reqs) + multiset(PinnedDeps(q))
  {
    PinsRemove(reqs, r);
    PinsRemove(reqs[r := q], r);
    assert reqs[r := q] - {r} == reqs - {r};
  }

  lemma Cancel<T>(a: multiset<T>, b: multiset<T>, c: multiset<T>)
    requires a + c == b + c
    ensures a == b
  {
    forall x: T ensures a[x] == b[x] {
      assert (a + c)[x] == (b + c)[x];
    }
  }

  lemma PinsKept(reqs: map<Rid, Request>, r: Rid, q: Request)
    requires r in reqs && PinnedDeps(q) == PinnedDeps(reqs[r])
    ensures Pins(reqs[r := q]) == Pins(reqs)
  {
    PinsSet(reqs, r, q);
    Cancel(Pins(reqs[r := q]), Pins(reqs), multiset(PinnedDeps(q)));
  }

  lemma PinsHold(reqs: map<Rid, Request>, r: Rid, id: Id)
    requires r in reqs && id in PinnedDeps(reqs[r])
    ensures id in Pins(reqs)
  {
    PinsRemove(reqs, r);
  }

  /** The counts are exact for the pins `m`, and auto-release implies an owner. */
  ghost predicate Counted(g: Graph, m: multiset<Id>) {
    && g.client.Keys <= g.nodes.Keys
    && forall id <- g.nodes ::
         && g.nodes[id].refcnt == Client(g, id) + m[id]
         && Client(g, id) >= (if g.nodes[id].autoRelease then 1 else 0)
  }

  ghost predicate Present(g: Graph, m: multiset<Id>) {
    forall id <- m :: id in g.nodes
  }

  /** `h` is `g` with some nodes gone, none of them in `m`, and counts changed. */
  ghost predicate Shrunk(g: Graph, h: Graph, m: multiset<Id>) {
    && h.nodes.Keys <= g.nodes.Keys
    && (forall id <- h.nodes :: h.nodes[id] == g.nodes[id].(refcnt := h.nodes[id].refcnt))
    && (forall id <- g.nodes :: id !in h.nodes ==> id !in m)
  }

  lemma UnpinCounted(g: Graph, d: Id, m: multiset<Id>)
    requires Counted(g, m + multiset{d}) && d in g.nodes
    ensures g.nodes[d].refcnt > 0 && Counted(Unpinned(g, d), m)
  {
    assert forall id: Id :: (m + multiset{d})[id] == m[id] + (if id == d then 1 else 0);
  }

  /** The owner's last reference goes, and the node with it. */
  lemma AutoreleaseCounted(g: Graph, f: Files, d: Id, m: multiset<Id>)
    requires Counted(g, m) && d in g.nodes
    ensures var h := MaybeAutorelease(g, f, d);
      Counted(h, m) && Shrunk(g, h, m) && (Present(g, m) ==> Present(h, m))
  {
    var h := MaybeAutorelease(g, f, d);
    if h != g {
      assert Client(g, d) == 1 && d !in m;
      assert h.nodes == g.nodes - {d} && h.client == g.client - {d};
      assert forall id <- h.nodes :: Client(h, id) == Client(g, id);
    }
  }

  /** Handing back one entry keeps the counts exact and erases no pinned node. */
  lemma ReleaseDepCounted(g: Graph, f: Files, d: Id, m: multiset<Id>)
    requires Counted(g, m + multiset{d})
    ensures var h := ReleaseDep(g, f, d);
      Counted(h, m) && Shrunk(g, h, m) && (Present(g, m) ==> Present(h, m))
  {
    if d in g.nodes {
      UnpinCounted(g, d, m);
      AutoreleaseCounted(Unpinned(g, d), f, d, m);
    } else {
      assert forall id: Id :: id != d ==> (m + multiset{d})[id] == m[id];
    }
  }

  lemma {:induction false} ReleaseDepsCounted(g: Graph, f: Files, ds: seq<Id>, m: multiset<Id>)
    requires Counted(g, m + multiset(ds))
    ensures var h := ReleaseDeps(g, f, ds);
      Counted(h, m) && Shrunk(g, h, m) && (Present(g, m) ==> Present(h, m))
    decreases ds
  {
    if ds == [] {
      assert m + multiset(ds) == m;
    } else {
      var rest := m + multiset(ds[1..]);
      assert ds == [ds[0]] + ds[1..];
      assert m + multiset(ds) == rest + multiset{ds[0]};
      ReleaseDepCounted(g, f, ds[0], rest);
      ReleaseDepsCounted(ReleaseDep(g, f, ds[0]), f, ds[1..], m);
    }
  }

  /** `h` is `g` with placeholders added and counts raised. */
  ghost predicate Grown(g: Graph, h: Graph) {
    && h == g.(nodes := h.nodes)
    && g.nodes.Keys <= h.nodes.Keys
    && (forall id <- h.nodes ::
          h.nodes[id] == (if id in g.nodes then g.nodes[id] else PLACEHOLDER).(refcnt := h.nodes[id].refcnt))
  }

  lemma RetainDepCounted(g: Graph, d: Id, m: multiset<Id>)
    requires Counted(g, m) && Present(g, m)
    ensures var h := RetainDep(g, d);
      Counted(h, m + multiset{d}) && Present(h, m + multiset{d}) && Grown(g, h)
  {
    assert forall id: Id :: (m + multiset{d})[id] == m[id] + (if id == d then 1 else 0);
  }

  lemma {:induction false} RetainDepsCounted(g: Graph, ds: seq<Id>, m: multiset<Id>)
    requires Counted(g, m) && Present(g, m)
    ensures var h := RetainDeps(g, ds);
      Counted(h, m + multiset(ds)) && Present(h, m + multiset(ds)) && Grown(g, h)
    decreases ds
  {
    if ds == [] {
      assert m + multiset(ds) == m;
    } else {
      var next := m + multiset{ds[0]};
      assert ds == [ds[0]] + ds[1..];
      assert m + multiset(ds) == next + multiset(ds[1..]);
      RetainDepCounted(g, ds[0], m);
      RetainDepsCounted(RetainDep(g, ds[0]), ds[1..], next);
    }
  }

  /** A caller dropping a reference it holds never erases a pinned node. */
  lemma ReleaseCounted(g: Graph, id: Id, m: multiset<Id>)
    requires Counted(g, m)
    requires id in g.nodes ==> Client(g, id) >= (if g.nodes[id].autoRelease then 2 else 1)
    ensures Counted(Release(g, id), m) && Shrunk(g, Release(g, id), m)
    ensures Present(g, m) ==> Present(Release(g, id), m)
  {}

  /** Every payload accepted with a cleanup has been cleaned up or is still held by a node. */
  ghost function Live(nodes: map<Id, Node>): multiset<Payload>
    decreases |nodes|
  {
    if nodes == map[] then multiset{}
    else
      var id :| id in nodes;
      Owned(nodes[id]) + Live(nodes - {id})
  }

  lemma {:induction false} LiveRemove(nodes: map<Id, Node>, id: Id)
    requires id in nodes
    ensures Live(nodes) == Owned(nodes[id]) + Live(nodes - {id})
    decreases |nodes|
  {
    var c :| c in nodes && Live(nodes) == Owned(nodes[c]) + Live(nodes - {c});
    if c == id {
    } else {
      LiveRemove(nodes - {c}, id);
      LiveRemove(nodes - {id}, c);
      EraseSwap(nodes, c, id);
      Swap(Owned(nodes[c]), Owned(nodes[id]), Live(nodes - {c} - {id}));
    }
  }

  lemma SetThenErase<K, V>(m: map<K, V>, k: K, v: V)
    ensures m[k := v] - {k} == m - {k}
    ensures k !in m ==> m - {k} == m
  {}

  /** Replacing a node changes what the nodes own by exactly that node. */
  lemma LiveSet(nodes: map<Id, Node>, id: Id, n: Node)
    ensures Live(nodes[id := n]) == Owned(n) + Live(nodes - {id})
    ensures Live(nodes) == (if id in nodes then Owned(nodes[id]) else multiset{}) + Live(nodes - {id})
  {
    SetThenErase(nodes, id, n);
    LiveRemove(nodes[id := n], id);
    if id in nodes { LiveRemove(nodes, id); }
  }

  ghost predicate Balanced(g: Graph) {
    g.accepted == g.cleaned + Live(g.nodes)
  }

  /** A node replaced by one that owns the same payload. */
  lemma SetBalanced(g: Graph, id: Id, n: Node, client: map<Id, int>)
    requires Balanced(g)
    requires Owned(n) == (if id in g.nodes then Owned(g.nodes[id]) else multiset{})
    ensures Balanced(g.(nodes := g.nodes[id := n], client := client))
  {
    LiveSet(g.nodes, id, n);
  }

  lemma EraseBalanced(g: Graph, id: Id)
    requires Balanced(g) && id in g.nodes
    ensures Balanced(Erase(g, id))
  {
    LiveRemove(g.nodes, id);
    var o, rest := Owned(g.nodes[id]), Live(g.nodes - {id});
    assert g.cleaned + (o + rest) == (g.cleaned + o) + rest;
  }

  lemma ReleaseBalanced(g: Graph, id: Id)
    requires Balanced(g)
    ensures Balanced(Release(g, id))
  {
    if id in g.nodes {
      SetBalanced(g, id, Dropped(g, id).nodes[id], Dropped(g, id).client);
      if g.nodes[id].refcnt == 1 { EraseBalanced(Dropped(g, id), id); }
    }
  }

  lemma ReleaseDepBalanced(g: Graph, f: Files, d: Id)
    requires Balanced(g)
    ensures Balanced(ReleaseDep(g, f, d))
  {
    if d in g.nodes {
      UnpinBalanced(g, d);
      ReleaseBalanced(Unpinned(g, d), d);
    }
  }

  lemma UnpinBalanced(g: Graph, d: Id)
    requires Balanced(g) && d in g.nodes
    ensures Balanced(Unpinned(g, d))
  {
    SetBalanced(g, d, Unpinned(g, d).nodes[d], g.client);
  }

  lemma {:induction false} ReleaseDepsBalanced(g: Graph, f: Files, ds: seq<Id>)
    requires Balanced(g)
    ensures Balanced(ReleaseDeps(g, f, ds))
    decreases ds
  {
    if ds == [] {
    } else {
      ReleaseDepBalanced(g, f, ds[0]);
      ReleaseDepsBalanced(ReleaseDep(g, f, ds[0]), f, ds[1..]);
    }
  }

  lemma CreateBalanced(g: Graph, id: Id)
    requires Balanced(g)
    ensures Balanced(GetOrCreate(g, id))
  {
    if id !in g.nodes { SetBalanced(g, id, PLACEHOLDER, g.client); }
  }

  lemma RetainDepBalanced(g: Graph, d: Id)
    requires Balanced(g)
    ensures Balanced(RetainDep(g, d))
  {
    CreateBalanced(g, d);
    SetBalanced(GetOrCreate(g, d), d, RetainDep(g, d).nodes[d], g.client);
  }

  lemma {:induction false} RetainDepsBalanced(g: Graph, ds: seq<Id>)
    requires Balanced(g)
    ensures Balanced(RetainDeps(g, ds))
    decreases ds
  {
    if ds == [] {
    } else {
      RetainDepBalanced(g, ds[0]);
      RetainDepsBalanced(RetainDep(g, ds[0]), ds[1..]);
    }
  }

  lemma AddrefBalanced(g: Graph, id: Id)
    requires Balanced(g)
    ensures Balanced(Addref(g, id))
  {
    CreateBalanced(g, id);
    SetBalanced(GetOrCreate(g, id), id, Addref(g, id).nodes[id], Addref(g, id).client);
  }

  lemma StoreBalanced(g: Graph, id: Id, payload: Option<Payload>, cleanup: bool)
    requires Balanced(g)
    ensures Balanced(Store(g, id, payload, cleanup))
  {
    CreateBalanced(g, id);
    var g1, h := GetOrCreate(g, id), Store(g, id, payload, cleanup);
    var o, n, rest := Owned(g1.nodes[id]), Owned(h.nodes[id]), Live(g1.nodes - {id});
    LiveSet(g1.nodes, id, h.nodes[id]);
    assert (g.cleaned + (o + rest)) + n == (g.cleaned + o) + (n + rest);
  }
}
