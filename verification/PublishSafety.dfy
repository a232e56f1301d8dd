/**
 When failing the waiters of a node touches freed memory. Nothing here assumes that the callers keep
 to the rules: `q` lists the pinned dependencies of each waiter, in blocking order.
*/
module PublishSafety {
  import opened Sequences
  import opened LoopState

  /** The loop of publish(NULL): it reads the node before each waiter; None is a read of a freed node. */
  function FailWaiters(g: Graph, f: Files, id: Id, q: seq<seq<Id>>): Option<Graph>
    decreases q
  {
    if q == [] then Some(g)
    else if id !in g.nodes then None
    else FailWaiters(ReleaseDeps(g, f, q[0]), f, id, q[1..])
  }

  /** The waiters of a node in curl_resource_destroy_all, which reads the node only after the last one. */
  function DestroyWaiters(g: Graph, f: Files, q: seq<seq<Id>>): Graph
    decreases q
  {
    if q == [] then g else DestroyWaiters(ReleaseDeps(g, f, q[0]), f, q[1..])
  }

  function Times(ds: seq<Id>, id: Id): nat {
    multiset(ds)[id]
  }

  /** How often the waiters name the node. */
  function Total(q: seq<seq<Id>>, id: Id): nat
    decreases q
  {
    if q == [] then 0 else Times(q[0], id) + Total(q[1..], id)
  }

  /** Handing back `c` entries of a node that has none blocked on it erases it. */
  predicate Erases(n: Node, c: nat) {
    n.autoRelease && c >= 1 && 2 <= n.refcnt <= c + 1
  }

  /** A count that is down to zero, or below, is left there. */
  function Lowered(refcnt: int, c: nat): int {
    if refcnt <= 0 then refcnt else if refcnt >= c then refcnt - c else 0
  }

  lemma ReleaseStep(g: Graph, f: Files, d: Id, id: Id)
    requires id in g.nodes
    ensures var n, h := g.nodes[id], ReleaseDep(g, f, d);
      if d != id then id in h.nodes && h.nodes[id] == n
      else if Erases(n, 1) && ListOf(f, Blocked(id)) == [] then id !in h.nodes
      else id in h.nodes && h.nodes[id] == n.(refcnt := Lowered(n.refcnt, 1))
  {}

  lemma {:induction false} GoneStays(g: Graph, f: Files, ds: seq<Id>, id: Id)
    requires id !in g.nodes
    ensures id !in ReleaseDeps(g, f, ds).nodes
    decreases ds
  {
    if ds == [] {
    } else {
      assert id !in ReleaseDep(g, f, ds[0]).nodes;
      GoneStays(ReleaseDep(g, f, ds[0]), f, ds[1..], id);
    }
  }

  /** One request's entries, handed back one by one, whatever the count. */
  lemma {:induction false} ReleaseTracks(g: Graph, f: Files, ds: seq<Id>, id: Id)
    requires id in g.nodes
    ensures var n, h, c := g.nodes[id], ReleaseDeps(g, f, ds), Times(ds, id);
      if Erases(n, c) && ListOf(f, Blocked(id)) == [] then id !in h.nodes
      else id in h.nodes && h.nodes[id] == n.(refcnt := Lowered(n.refcnt, c))
    decreases ds
  {
    if ds == [] {
    } else {
      var h := ReleaseDep(g, f, ds[0]);
      assert ds == [ds[0]] + ds[1..];
      assert Times(ds, id) == (if ds[0] == id then 1 else 0) + Times(ds[1..], id);
      ReleaseStep(g, f, ds[0], id);
      if id in h.nodes {
        ReleaseTracks(h, f, ds[1..], id);
      } else {
        GoneStays(h, f, ds[1..], id);
      }
    }
  }

  /** Handing back some entries and then some more. */
  lemma ErasesInTwo(n: Node, c: nat, d: nat)
    ensures Erases(n, c + d) <==> Erases(n, c) || Erases(n.(refcnt := Lowered(n.refcnt, c)), d)
  {}

  lemma {:induction false} TotalLast(q: seq<seq<Id>>, id: Id)
    requires q != []
    ensures Total(q, id) == Total(q[..|q| - 1], id) + Times(q[|q| - 1], id)
    decreases q
  {
    if |q| == 1 {
    } else {
      TotalLast(q[1..], id);
      assert q[1..][..|q| - 2] == q[..|q| - 1][1..];
    }
  }

  lemma {:induction false} TotalAtLeast(q: seq<seq<Id>>, id: Id)
    requires forall i :: 0 <= i < |q| ==> id in q[i]
    ensures Total(q, id) >= |q|
    decreases q
  {
    if q == [] {
    } else {
      TotalAtLeast(q[1..], id);
    }
  }

  /**
   publish(NULL) reads a freed node exactly when handing back the entries of all waiters but the last
   erases the node.
  */
  lemma {:induction false} PublishNullFaultsIff(g: Graph, f: Files, id: Id, q: seq<seq<Id>>)
    requires id in g.nodes && ListOf(f, Blocked(id)) == []
    ensures FailWaiters(g, f, id, q) == None <==> q != [] && Erases(g.nodes[id], Total(q[..|q| - 1], id))
    decreases q
  {
    if q == [] {
    } else {
      var n, c, h := g.nodes[id], Times(q[0], id), ReleaseDeps(g, f, q[0]);
      ReleaseTracks(g, f, q[0], id);
      if |q| > 1 {
        var before := q[..|q| - 1];
        assert before[0] == q[0] && before[1..] == q[1..][..|q[1..]| - 1];
        ErasesInTwo(n, c, Total(before[1..], id));
        if id in h.nodes {
          PublishNullFaultsIff(h, f, id, q[1..]);
        }
      }
    }
  }

  /**
   If nobody has dropped a reference that is not theirs, that is when the node auto-releases, has at
   least two waiters, is held by nobody but its waiters, and the last waiter names it once.
  */
  lemma PublishNullFaultsWhenCounted(g: Graph, f: Files, id: Id, q: seq<seq<Id>>)
    requires id in g.nodes && ListOf(f, Blocked(id)) == []
    requires forall i :: 0 <= i < |q| ==> id in q[i]
    requires g.nodes[id].refcnt >= Total(q, id)
    ensures FailWaiters(g, f, id, q) == None <==>
      && g.nodes[id].autoRelease && |q| >= 2
      && g.nodes[id].refcnt == Total(q, id) && Times(q[|q| - 1], id) == 1
  {
    PublishNullFaultsIff(g, f, id, q);
    if q != [] {
      TotalLast(q, id);
      TotalAtLeast(q[..|q| - 1], id);
      assert id in q[|q| - 1];
    }
  }

  /** Tearing down a node reads it after it was freed exactly when its waiters' entries erase it. */
  lemma {:induction false} TeardownFaultsIff(g: Graph, f: Files, id: Id, q: seq<seq<Id>>)
    requires id in g.nodes && ListOf(f, Blocked(id)) == []
    ensures id !in DestroyWaiters(g, f, q).nodes <==> Erases(g.nodes[id], Total(q, id))
    decreases q
  {
    if q == [] {
    } else {
      var n, c, h := g.nodes[id], Times(q[0], id), ReleaseDeps(g, f, q[0]);
      ReleaseTracks(g, f, q[0], id);
      ErasesInTwo(n, c, Total(q[1..], id));
      if id in h.nodes {
        TeardownFaultsIff(h, f, id, q[1..]);
      } else {
        GoneForGood(h, f, id, q[1..]);
      }
    }
  }

  lemma {:induction false} GoneForGood(g: Graph, f: Files, id: Id, q: seq<seq<Id>>)
    requires id !in g.nodes
    ensures id !in DestroyWaiters(g, f, q).nodes
    decreases q
  {
    if q == [] {
    } else {
      GoneStays(g, f, q[0], id);
      GoneForGood(ReleaseDeps(g, f, q[0]), f, id, q[1..]);
    }
  }

  /**
   The failure is real: two requests depend on an id that nobody has declared, a caller sets it to
   auto-release, and it is published as failed.
  */
  lemma PlaceholderPublishFaults(f: Files)
    requires ListOf(f, Blocked(7)) == []
    ensures var g := Graph(map[], map[], multiset{}, multiset{});
      var pinned := RetainDeps(RetainDeps(g, [7]), [7]);
      FailWaiters(Store(SetAuto(pinned, 7, true), 7, None, false), f, 7, [[7], [7]]) == None
  {
    var g := Graph(map[], map[], multiset{}, multiset{});
    assert [7][1..] == [];
    assert RetainDeps(g, [7]) == RetainDep(g, 7);
    var one := RetainDep(g, 7);
    assert RetainDeps(one, [7]) == RetainDep(one, 7);
    var h := Store(SetAuto(RetainDep(one, 7), 7, true), 7, None, false);
    assert h.nodes[7].refcnt == 2 && h.nodes[7].autoRelease;
    assert [[7], [7]][..1] == [[7]] && [[7]][1..] == [];
    PublishNullFaultsIff(h, f, 7, [[7], [7]]);
  }

  /** Handing back too many entries faults too: three waiters on a node whose count is two. */
  lemma OverReleasedFaults(f: Files)
    requires ListOf(f, Blocked(7)) == []
    ensures FailWaiters(Graph(map[7 := Node(None, false, 2, true, true)], map[], multiset{}, multiset{}), f, 7,
                        [[7], [7], [7]]) == None
  {
    var g := Graph(map[7 := Node(None, false, 2, true, true)], map[], multiset{}, multiset{});
    var q := [[7], [7], [7]];
    assert q[..2] == [[7], [7]] && [[7], [7]][1..] == [[7]] && [[7]][1..] == [];
    PublishNullFaultsIff(g, f, 7, q);
  }
}
