/**
 The memory of the event loop: requests and nodes at their addresses, linked as the code links them.
 A freed request or node is not in its map, so every read of one carries a proof that it is live.
*/
module LinkedMemory {
  import opened Sequences
  import opened LoopState
  import opened Filing

  /** A request's memory. `nextPending` links the pending list and every blocked list. */
  datatype ReqCell = ReqCell(req: Request, nextPending: Rid, nextCancelled: Rid)

  datatype NodeCell = NodeCell(node: Node, blockedHead: Rid, blockedTail: Rid)

  ghost predicate SameReqs(cells: map<Rid, ReqCell>, reqs: map<Rid, Request>) {
    cells.Keys == reqs.Keys && forall r <- cells :: cells[r].req == reqs[r]
  }

  ghost predicate SameNodes(cells: map<Id, NodeCell>, nodes: map<Id, Node>) {
    cells.Keys == nodes.Keys && forall id <- cells :: cells[id].node == nodes[id]
  }

  /** The first request from position `i` on, or NULL. */
  function From(l: seq<Rid>, i: nat): Rid {
    if i < |l| then l[i] else 0
  }

  ghost predicate Linked(cells: map<Rid, ReqCell>, l: seq<Rid>, i: nat)
    requires i < |l|
  {
    l[i] != 0 && l[i] in cells && cells[l[i]].nextPending == From(l, i + 1)
  }

  /** `head` and the nextPending links run through exactly the requests of `l`, in order, to NULL. */
  ghost predicate Chain(cells: map<Rid, ReqCell>, head: Rid, l: seq<Rid>) {
    head == From(l, 0) && forall i: nat :: i < |l| ==> Linked(cells, l, i)
  }

  ghost predicate CancelLinked(cells: map<Rid, ReqCell>, l: seq<Rid>, i: nat)
    requires i < |l|
  {
    l[i] != 0 && l[i] in cells && cells[l[i]].nextCancelled == From(l, i + 1)
  }

  ghost predicate CancelChain(cells: map<Rid, ReqCell>, head: Rid, l: seq<Rid>) {
    head == From(l, 0) && forall i: nat :: i < |l| ==> CancelLinked(cells, l, i)
  }

  /** The blocked list of one node: its chain, and its tail the last request. */
  ghost predicate WaiterList(cells: map<Rid, ReqCell>, n: NodeCell, l: seq<Rid>) {
    Chain(cells, n.blockedHead, l) && n.blockedTail == (if l == [] then 0 else l[|l| - 1])
  }

  ghost predicate Waiters(cells: map<Rid, ReqCell>, nodes: map<Id, NodeCell>, f: Files) {
    forall id: Id {:trigger Blocked(id)} ::
      if id in nodes then WaiterList(cells, nodes[id], ListOf(f, Blocked(id))) else ListOf(f, Blocked(id)) == []
  }

  // ----- one list

  lemma ChainNext(cells: map<Rid, ReqCell>, head: Rid, l: seq<Rid>)
    requires Chain(cells, head, l) && l != []
    ensures head in cells && head == l[0] && Chain(cells, cells[head].nextPending, l[1..])
  {
    assert Linked(cells, l, 0);
    var rest := l[1..];
    forall i: nat | i < |rest| ensures Linked(cells, rest, i) {
      assert Linked(cells, l, i + 1);
    }
  }

  lemma CancelNext(cells: map<Rid, ReqCell>, head: Rid, l: seq<Rid>)
    requires CancelChain(cells, head, l) && l != []
    ensures head in cells && head == l[0] && CancelChain(cells, cells[head].nextCancelled, l[1..])
  {
    assert CancelLinked(cells, l, 0);
    var rest := l[1..];
    forall i: nat | i < |rest| ensures CancelLinked(cells, rest, i) {
      assert CancelLinked(cells, l, i + 1);
    }
  }

  /** Linking `r` in front of a list it is not in. */
  lemma ChainPush(cells: map<Rid, ReqCell>, head: Rid, l: seq<Rid>, r: Rid)
    requires Chain(cells, head, l) && r in cells && r != 0 && r !in l
    ensures Chain(cells[r := cells[r].(nextPending := head)], r, [r] + l)
  {
    var after := cells[r := cells[r].(nextPending := head)];
    var m := [r] + l;
    forall i: nat | i < |m| ensures Linked(after, m, i) {
      if i > 0 { assert Linked(cells, l, i - 1) && m[i] == l[i - 1] && m[i] in l; }
    }
  }

  lemma CancelPush(cells: map<Rid, ReqCell>, head: Rid, l: seq<Rid>, r: Rid)
    requires CancelChain(cells, head, l) && r in cells && r != 0 && r !in l
    ensures CancelChain(cells[r := cells[r].(nextCancelled := head)], r, [r] + l)
  {
    var after := cells[r := cells[r].(nextCancelled := head)];
    var m := [r] + l;
    forall i: nat | i < |m| ensures CancelLinked(after, m, i) {
      if i > 0 { assert CancelLinked(cells, l, i - 1) && m[i] == l[i - 1] && m[i] in l; }
    }
  }

  /** Linking `r` behind the tail of a list it is not in. */
  lemma ChainAppend(cells: map<Rid, ReqCell>, head: Rid, l: seq<Rid>, r: Rid)
    requires Chain(cells, head, l) && l != [] && Distinct(l) && r in cells && r != 0 && r !in l
    requires cells[r].nextPending == 0
    ensures var tail := l[|l| - 1];
      tail in cells && Chain(cells[tail := cells[tail].(nextPending := r)], head, l + [r])
  {
    var tail := l[|l| - 1];
    assert Linked(cells, l, |l| - 1);
    var after := cells[tail := cells[tail].(nextPending := r)];
    var m := l + [r];
    forall i: nat | i < |m| ensures Linked(after, m, i) {
      if i < |l| {
        assert Linked(cells, l, i) && m[i] == l[i] && m[i] in l;
        assert i < |l| - 1 ==> l[i] != tail;
      }
    }
  }

  // ----- the lists of the loop in memory

  /**
   All the lists that run through memory: pending, the one the loop thread has detached, the waiters
   of each node, and the two lists of cancelled requests (`c`, and `w` which is detached).
  */
  ghost predicate Linkage(cells: map<Rid, ReqCell>, nodes: map<Id, NodeCell>, f: Files,
                          pending: Rid, cancelled: Rid, c: seq<Rid>, w: seq<Rid>)
  {
    && Chain(cells, pending, ListOf(f, Pending))
    && Chain(cells, From(ListOf(f, Work), 0), ListOf(f, Work))
    && Waiters(cells, nodes, f)
    && CancelChain(cells, cancelled, c) && CancelChain(cells, From(w, 0), w)
    && Unstrung(cells)
  }

  /** Of a request that was never cancelled, nextCancelled is NULL. */
  ghost predicate Unstrung(cells: map<Rid, ReqCell>) {
    forall r <- cells :: !cells[r].req.isCancelled ==> cells[r].nextCancelled == 0
  }

  /** The lists that are linked through nextPending. */
  ghost predicate ByLink(p: Place) {
    p == Pending || p == Work || p.Blocked?
  }

  ghost predicate SameLinked(f: Files, h: Files) {
    forall p: Place {:trigger ListOf(f, p)} {:trigger ListOf(h, p)} :: ByLink(p) ==> ListOf(f, p) == ListOf(h, p)
  }

  lemma ListsSame(cells: map<Rid, ReqCell>, nodes: map<Id, NodeCell>, f: Files, h: Files,
                  pending: Rid, cancelled: Rid, c: seq<Rid>, w: seq<Rid>)
    requires Linkage(cells, nodes, f, pending, cancelled, c, w) && SameLinked(f, h)
    ensures Linkage(cells, nodes, h, pending, cancelled, c, w)
  {
    forall id: Id ensures ListOf(f, Blocked(id)) == ListOf(h, Blocked(id)) {}
    assert Waiters(cells, nodes, h);
  }

  /** Memory changed, but none of the links, and nobody's cancel was taken back. */
  ghost predicate LinksKept(cells: map<Rid, ReqCell>, after: map<Rid, ReqCell>, except: Rid) {
    forall r <- cells :: r != except ==>
      && r in after && after[r].nextPending == cells[r].nextPending && after[r].nextCancelled == cells[r].nextCancelled
      && (cells[r].req.isCancelled ==> after[r].req.isCancelled)
  }

  lemma ChainKept(cells: map<Rid, ReqCell>, after: map<Rid, ReqCell>, except: Rid, head: Rid, l: seq<Rid>)
    requires LinksKept(cells, after, except) && except !in l && Chain(cells, head, l)
    ensures Chain(after, head, l)
  {
    forall i: nat | i < |l| ensures Linked(after, l, i) {
      assert Linked(cells, l, i) && l[i] in l;
    }
  }

  lemma CancelChainKept(cells: map<Rid, ReqCell>, after: map<Rid, ReqCell>, except: Rid, head: Rid, l: seq<Rid>)
    requires LinksKept(cells, after, except) && except !in l && CancelChain(cells, head, l)
    ensures CancelChain(after, head, l)
  {
    forall i: nat | i < |l| ensures CancelLinked(after, l, i) {
      assert CancelLinked(cells, l, i) && l[i] in l;
    }
  }

  /** The lists of `f` but those in `touched` do not run through `except`. */
  ghost predicate Outside(f: Files, except: Rid, touched: Place) {
    forall p: Place {:trigger ListOf(f, p)} :: ByLink(p) && p != touched ==> except !in ListOf(f, p)
  }

  lemma WaitersKept(cells: map<Rid, ReqCell>, after: map<Rid, ReqCell>, except: Rid, nodes: map<Id, NodeCell>, f: Files)
    requires LinksKept(cells, after, except) && Waiters(cells, nodes, f) && Outside(f, except, Hand)
    ensures Waiters(after, nodes, f)
  {
    forall id: Id | id in nodes ensures WaiterList(after, nodes[id], ListOf(f, Blocked(id))) {
      assert WaiterList(cells, nodes[id], ListOf(f, Blocked(id)));
      ChainKept(cells, after, except, nodes[id].blockedHead, ListOf(f, Blocked(id)));
    }
  }

  /** What happens to a request that is in no linked list is no concern of any list. */
  lemma Unlinked(cells: map<Rid, ReqCell>, after: map<Rid, ReqCell>, r: Rid, nodes: map<Id, NodeCell>, f: Files,
                 pending: Rid, cancelled: Rid, c: seq<Rid>, w: seq<Rid>)
    requires Linkage(cells, nodes, f, pending, cancelled, c, w) && LinksKept(cells, after, r)
    requires Outside(f, r, Hand) && r !in c && r !in w
    requires after.Keys <= cells.Keys + {r}
    requires r in after && !after[r].req.isCancelled ==> after[r].nextCancelled == 0
    ensures Linkage(after, nodes, f, pending, cancelled, c, w)
  {
    ChainKept(cells, after, r, pending, ListOf(f, Pending));
    ChainKept(cells, after, r, From(ListOf(f, Work), 0), ListOf(f, Work));
    WaitersKept(cells, after, r, nodes, f);
    CancelChainKept(cells, after, r, cancelled, c);
    CancelChainKept(cells, after, r, From(w, 0), w);
  }

  lemma NextCleared(cells: map<Rid, ReqCell>, r: Rid, nodes: map<Id, NodeCell>, f: Files,
                    pending: Rid, cancelled: Rid, c: seq<Rid>, w: seq<Rid>)
    requires Linkage(cells, nodes, f, pending, cancelled, c, w)
    requires r in cells && Outside(f, r, Hand) && r !in c && r !in w
    ensures Linkage(cells[r := cells[r].(nextPending := 0)], nodes, f, pending, cancelled, c, w)
  {
    Unlinked(cells, cells[r := cells[r].(nextPending := 0)], r, nodes, f, pending, cancelled, c, w);
  }

  lemma HandOutside(f: Files, r: Rid)
    requires Listed(f) && r in f.place && !ByLink(f.place[r])
    ensures Outside(f, r, Hand)
  {}

  /** NULL is in no list. */
  lemma NullOutside(cells: map<Rid, ReqCell>, nodes: map<Id, NodeCell>, f: Files,
                    pending: Rid, cancelled: Rid, c: seq<Rid>, w: seq<Rid>)
    requires Linkage(cells, nodes, f, pending, cancelled, c, w)
    ensures Outside(f, 0, Hand) && 0 !in c && 0 !in w
  {
    forall p: Place | ByLink(p) ensures 0 !in ListOf(f, p) {
      if p.Blocked? && p.id in nodes {
        assert WaiterList(cells, nodes[p.id], ListOf(f, p));
      }
      forall i: nat | i < |ListOf(f, p)| ensures ListOf(f, p)[i] != 0 {
        assert p.Blocked? ==> ListOf(f, Blocked(p.id)) == ListOf(f, p);
        assert Linked(cells, ListOf(f, p), i);
      }
    }
    forall i: nat | i < |c| ensures c[i] != 0 { assert CancelLinked(cells, c, i); }
    forall i: nat | i < |w| ensures w[i] != 0 { assert CancelLinked(cells, w, i); }
  }

  /** New fields, same links. */
  lemma FieldsChanged(cells: map<Rid, ReqCell>, r: Rid, q: Request, nodes: map<Id, NodeCell>, f: Files,
                      pending: Rid, cancelled: Rid, c: seq<Rid>, w: seq<Rid>)
    requires Linkage(cells, nodes, f, pending, cancelled, c, w) && r in cells
    requires cells[r].req.isCancelled ==> q.isCancelled
    ensures Linkage(cells[r := cells[r].(req := q)], nodes, f, pending, cancelled, c, w)
  {
    NullOutside(cells, nodes, f, pending, cancelled, c, w);
    Unlinked(cells, cells[r := cells[r].(req := q)], 0, nodes, f, pending, cancelled, c, w);
  }

  /** `h` is `f` with the list of `p` replaced by `l`, as far as links go. */
  ghost predicate Relisted(f: Files, h: Files, p: Place, l: seq<Rid>) {
    && ListOf(h, p) == l
    && forall o: Place {:trigger ListOf(f, o)} {:trigger ListOf(h, o)} ::
         ByLink(o) && o != p ==> ListOf(h, o) == ListOf(f, o)
  }

  lemma WaitersRelisted(cells: map<Rid, ReqCell>, nodes: map<Id, NodeCell>, f: Files, h: Files, p: Place)
    requires Waiters(cells, nodes, f) && !p.Blocked? && Relisted(f, h, p, ListOf(h, p))
    ensures Waiters(cells, nodes, h)
  {
    forall id: Id ensures ListOf(f, Blocked(id)) == ListOf(h, Blocked(id)) {}
  }

  /** The head of the detached list is taken off; the next one is the list's new head. */
  lemma WorkPopped(cells: map<Rid, ReqCell>, nodes: map<Id, NodeCell>, f: Files, h: Files,
                   pending: Rid, cancelled: Rid, c: seq<Rid>, w: seq<Rid>)
    requires Linkage(cells, nodes, f, pending, cancelled, c, w)
    requires ListOf(f, Work) != [] && Relisted(f, h, Work, ListOf(f, Work)[1..])
    ensures Linkage(cells, nodes, h, pending, cancelled, c, w)
    ensures var r := ListOf(f, Work)[0]; r in cells && cells[r].nextPending == From(ListOf(h, Work), 0)
  {
    ChainNext(cells, From(ListOf(f, Work), 0), ListOf(f, Work));
    WaitersRelisted(cells, nodes, f, h, Work);
  }

  lemma PendingPopped(cells: map<Rid, ReqCell>, nodes: map<Id, NodeCell>, f: Files, h: Files,
                      pending: Rid, cancelled: Rid, c: seq<Rid>, w: seq<Rid>)
    requires Linkage(cells, nodes, f, pending, cancelled, c, w)
    requires ListOf(f, Pending) != [] && Relisted(f, h, Pending, ListOf(f, Pending)[1..])
    ensures pending in cells && Linkage(cells, nodes, h, cells[pending].nextPending, cancelled, c, w)
  {
    ChainNext(cells, pending, ListOf(f, Pending));
    WaitersRelisted(cells, nodes, f, h, Pending);
  }

  /** `r`, in no list, is linked in front of the pending list. */
  lemma PendingPushed(cells: map<Rid, ReqCell>, nodes: map<Id, NodeCell>, f: Files, h: Files, r: Rid,
                      pending: Rid, cancelled: Rid, c: seq<Rid>, w: seq<Rid>)
    requires Linkage(cells, nodes, f, pending, cancelled, c, w)
    requires r in cells && r != 0 && Outside(f, r, Hand) && r !in c && r !in w
    requires Relisted(f, h, Pending, [r] + ListOf(f, Pending))
    ensures Linkage(cells[r := cells[r].(nextPending := pending)], nodes, h, r, cancelled, c, w)
  {
    var after := cells[r := cells[r].(nextPending := pending)];
    Unlinked(cells, after, r, nodes, f, pending, cancelled, c, w);
    ChainPush(cells, pending, ListOf(f, Pending), r);
    WaitersRelisted(after, nodes, f, h, Pending);
  }

  /** The whole pending list is detached. */
  lemma PendingDetached(cells: map<Rid, ReqCell>, nodes: map<Id, NodeCell>, f: Files, h: Files,
                        pending: Rid, cancelled: Rid, c: seq<Rid>, w: seq<Rid>)
    requires Linkage(cells, nodes, f, pending, cancelled, c, w)
    requires ListOf(h, Work) == ListOf(f, Pending) && ListOf(h, Pending) == []
    requires forall id: Id {:trigger Blocked(id)} :: ListOf(h, Blocked(id)) == ListOf(f, Blocked(id))
    ensures Linkage(cells, nodes, h, 0, cancelled, c, w) && pending == From(ListOf(h, Work), 0)
  {
    forall id: Id | id in nodes ensures WaiterList(cells, nodes[id], ListOf(h, Blocked(id))) {
      assert ListOf(h, Blocked(id)) == ListOf(f, Blocked(id));
      assert WaiterList(cells, nodes[id], ListOf(f, Blocked(id)));
    }
  }

  /** Both lists of cancelled requests: the loop thread takes over the shared one. */
  lemma CancelsDetached(cells: map<Rid, ReqCell>, nodes: map<Id, NodeCell>, f: Files,
                        pending: Rid, cancelled: Rid, c: seq<Rid>)
    requires Linkage(cells, nodes, f, pending, cancelled, c, [])
    ensures Linkage(cells, nodes, f, pending, 0, [], c) && cancelled == From(c, 0)
  {}

  /** Teardown takes over the shared one and gives it up. */
  lemma CancelsGivenUp(cells: map<Rid, ReqCell>, nodes: map<Id, NodeCell>, f: Files,
                       pending: Rid, cancelled: Rid, c: seq<Rid>)
    requires Linkage(cells, nodes, f, pending, cancelled, c, [])
    ensures Linkage(cells, nodes, f, pending, 0, [], []) && cancelled == From(c, 0) && (cancelled == 0 <==> c == [])
  {
    if c != [] { assert CancelLinked(cells, c, 0); }
  }

  /** The next cancelled request, read from the head of the detached ones. */
  lemma CancelHead(cells: map<Rid, ReqCell>, nodes: map<Id, NodeCell>, f: Files,
                   pending: Rid, cancelled: Rid, c: seq<Rid>, w: seq<Rid>)
    requires Linkage(cells, nodes, f, pending, cancelled, c, w) && w != []
    ensures w[0] in cells && cells[w[0]].nextCancelled == From(w[1..], 0)
  {
    CancelNext(cells, From(w, 0), w);
  }

  /** The head of the detached cancelled requests, in no other list, is freed. */
  lemma CancelFreed(cells: map<Rid, ReqCell>, nodes: map<Id, NodeCell>, f: Files,
                    pending: Rid, cancelled: Rid, c: seq<Rid>, w: seq<Rid>)
    requires Linkage(cells, nodes, f, pending, cancelled, c, w) && w != []
    requires Outside(f, w[0], Hand) && w[0] !in c && w[0] !in w[1..]
    ensures Linkage(cells - {w[0]}, nodes, f, pending, cancelled, c, w[1..])
  {
    var r, after := w[0], cells - {w[0]};
    CancelNext(cells, From(w, 0), w);
    ChainKept(cells, after, r, pending, ListOf(f, Pending));
    ChainKept(cells, after, r, From(ListOf(f, Work), 0), ListOf(f, Work));
    WaitersKept(cells, after, r, nodes, f);
    CancelChainKept(cells, after, r, cancelled, c);
    CancelChainKept(cells, after, r, From(w[1..], 0), w[1..]);
  }

  lemma CancelPushed(cells: map<Rid, ReqCell>, nodes: map<Id, NodeCell>, f: Files, r: Rid,
                     pending: Rid, cancelled: Rid, c: seq<Rid>, w: seq<Rid>)
    requires Linkage(cells, nodes, f, pending, cancelled, c, w)
    requires r in cells && r != 0 && Outside(f, r, Hand) && r !in c && r !in w && cells[r].req.isCancelled
    ensures Linkage(cells[r := cells[r].(nextCancelled := cancelled)], nodes, f, pending, r, [r] + c, w)
  {
    var after := cells[r := cells[r].(nextCancelled := cancelled)];
    ChainKept(cells, after, r, pending, ListOf(f, Pending));
    ChainKept(cells, after, r, From(ListOf(f, Work), 0), ListOf(f, Work));
    WaitersKept(cells, after, r, nodes, f);
    CancelChainKept(cells, after, r, From(w, 0), w);
    CancelPush(cells, cancelled, c, r);
  }

  // ----- cancelling twice

  /**
   curl_event_loop_cancel takes a request for cancelled if nextCancelled is set. That is so of the
   requests in a cancelled list but its last.
  */
  lemma SecondCancelSeenIff(cells: map<Rid, ReqCell>, head: Rid, c: seq<Rid>, r: Rid)
    requires CancelChain(cells, head, c) && Distinct(c) && r in c
    ensures r in cells && (cells[r].nextCancelled != 0 <==> r != c[|c| - 1])
  {
    var i: nat :| i < |c| && c[i] == r;
    assert CancelLinked(cells, c, i);
    if i + 1 < |c| { assert CancelLinked(cells, c, i + 1); }
  }

  /** Cancelled a second time unseen, the last request is linked in front: the list never ends. */
  lemma SecondCancelCycles(cells: map<Rid, ReqCell>, head: Rid, c: seq<Rid>, l: seq<Rid>)
    requires CancelChain(cells, head, c) && c != []
    ensures var r := c[|c| - 1];
      r in cells && !CancelChain(cells[r := cells[r].(nextCancelled := head)], r, l)
  {
    var r := c[|c| - 1];
    assert CancelLinked(cells, c, |c| - 1);
    var after := cells[r := cells[r].(nextCancelled := head)];
    if CancelChain(after, r, l) {
      NeverEnds(cells, after, head, c, l, |l|);
    }
  }

  /**
   Cancelled a second time, unseen, while it is the last of the detached list: it is linked in front
   of the shared list as well, and the walk over the detached one runs on into the shared one. So the
   drain destroys it and everything on the shared list, which the next drain walks again.
  */
  lemma SecondCancelInBoth(cells: map<Rid, ReqCell>, head: Rid, c: seq<Rid>, w: seq<Rid>)
    requires CancelChain(cells, head, c) && CancelChain(cells, From(w, 0), w) && w != [] && Distinct(w + c)
    ensures var r := w[|w| - 1];
      && r in cells && cells[r].nextCancelled == 0
      && var after := cells[r := cells[r].(nextCancelled := head)];
      && CancelChain(after, r, [r] + c) && CancelChain(after, From(w, 0), w + c)
  {
    var r := w[|w| - 1];
    assert CancelLinked(cells, w, |w| - 1);
    var after := cells[r := cells[r].(nextCancelled := head)];
    forall i: nat | i < |c| ensures c[i] != r {
      assert (w + c)[|w| + i] == c[i] && (w + c)[|w| - 1] == r;
    }
    CancelPush(cells, head, c, r);
    forall i: nat | i < |w + c| ensures CancelLinked(after, w + c, i) {
      if i < |w| {
        assert CancelLinked(cells, w, i);
        assert i < |w| - 1 ==> (w + c)[i] != (w + c)[|w| - 1];
      } else {
        assert CancelLinked(after, [r] + c, i - |w| + 1);
      }
    }
  }

  lemma {:induction false} NeverEnds(cells: map<Rid, ReqCell>, after: map<Rid, ReqCell>, head: Rid, c: seq<Rid>,
                                     l: seq<Rid>, i: nat)
    requires CancelChain(cells, head, c) && c != [] && c[|c| - 1] in cells
    requires after == cells[c[|c| - 1] := cells[c[|c| - 1]].(nextCancelled := head)]
    requires CancelChain(after, c[|c| - 1], l)
    ensures i < |l| && l[i] in c
    decreases i
  {
    if i == 0 {
      assert CancelLinked(cells, c, |c| - 1);
    } else {
      NeverEnds(cells, after, head, c, l, i - 1);
      var j: nat :| j < |c| && c[j] == l[i - 1];
      assert CancelLinked(cells, c, j) && CancelLinked(after, l, i - 1);
      assert CancelLinked(cells, c, if l[i - 1] == c[|c| - 1] then 0 else j + 1);
    }
  }

  /** A waiter list without its waiters: the loop thread takes them over. */
  lemma WaitersDetached(cells: map<Rid, ReqCell>, nodes: map<Id, NodeCell>, f: Files, h: Files, id: Id,
                        pending: Rid, cancelled: Rid, c: seq<Rid>, w: seq<Rid>)
    requires Linkage(cells, nodes, f, pending, cancelled, c, w) && id in nodes
    requires ListOf(h, Work) == ListOf(f, Blocked(id)) && ListOf(h, Pending) == ListOf(f, Pending)
    requires forall i: Id {:trigger Blocked(i)} ::
      ListOf(h, Blocked(i)) == if i == id then [] else ListOf(f, Blocked(i))
    ensures Linkage(cells, nodes[id := nodes[id].(blockedHead := 0, blockedTail := 0)], h, pending, cancelled, c, w)
    ensures nodes[id].blockedHead == From(ListOf(h, Work), 0)
  {
    var after := nodes[id := nodes[id].(blockedHead := 0, blockedTail := 0)];
    assert WaiterList(cells, nodes[id], ListOf(f, Blocked(id)));
    forall i: Id | i in after ensures WaiterList(cells, after[i], ListOf(h, Blocked(i))) {
      assert WaiterList(cells, nodes[i], ListOf(f, Blocked(i)));
      assert ListOf(h, Blocked(i)) == if i == id then [] else ListOf(f, Blocked(i));
    }
    forall i: Id | i !in after ensures ListOf(h, Blocked(i)) == [] {
      assert ListOf(f, Blocked(i)) == [];
    }
  }

  /** Memory and node after block_request_on_res. */
  function Appended(cells: map<Rid, ReqCell>, n: NodeCell, r: Rid): map<Rid, ReqCell>
    requires r in cells && (n.blockedTail != 0 ==> n.blockedTail in cells)
  {
    var unlinked := cells[r := cells[r].(nextPending := 0)];
    if n.blockedTail == 0 then unlinked
    else unlinked[n.blockedTail := unlinked[n.blockedTail].(nextPending := r)]
  }

  function Tailed(n: NodeCell, r: Rid): NodeCell {
    if n.blockedTail == 0 then n.(blockedHead := r, blockedTail := r) else n.(blockedTail := r)
  }

  lemma TailLive(cells: map<Rid, ReqCell>, n: NodeCell, l: seq<Rid>)
    requires WaiterList(cells, n, l)
    ensures n.blockedTail != 0 <==> l != []
    ensures l != [] ==> n.blockedTail == l[|l| - 1] && n.blockedTail in cells
  {
    if l != [] { assert Linked(cells, l, |l| - 1); }
  }

  /** Appending `r`, in no list, to a list of waiters. */
  lemma WaiterAppended(cells: map<Rid, ReqCell>, n: NodeCell, l: seq<Rid>, r: Rid)
    requires WaiterList(cells, n, l) && Distinct(l) && r in cells && r != 0 && r !in l
    ensures n.blockedTail != 0 ==> n.blockedTail in cells
    ensures WaiterList(Appended(cells, n, r), Tailed(n, r), l + [r])
  {
    TailLive(cells, n, l);
    var unlinked := cells[r := cells[r].(nextPending := 0)];
    ChainKept(cells, unlinked, r, n.blockedHead, l);
    if l == [] {
      assert Linked(unlinked, [r], 0);
    } else {
      ChainAppend(unlinked, n.blockedHead, l, r);
    }
  }

  /** The other lists do not run through the tail of this one. */
  lemma TailElsewhere(f: Files, l: seq<Rid>, id: Id, p: Place)
    requires Listed(f) && l == ListOf(f, Blocked(id)) && l != [] && p != Blocked(id)
    ensures l[|l| - 1] !in ListOf(f, p)
  {
    assert l[|l| - 1] in l;
  }

  lemma ChainAppended(cells: map<Rid, ReqCell>, n: NodeCell, r: Rid, head: Rid, l: seq<Rid>)
    requires r in cells && (n.blockedTail != 0 ==> n.blockedTail in cells) && r !in l && n.blockedTail !in l
    requires Chain(cells, head, l)
    ensures Chain(Appended(cells, n, r), head, l)
  {
    var unlinked := cells[r := cells[r].(nextPending := 0)];
    ChainKept(cells, unlinked, r, head, l);
    ChainKept(unlinked, Appended(cells, n, r), n.blockedTail, head, l);
  }

  lemma CancelAppended(cells: map<Rid, ReqCell>, n: NodeCell, r: Rid, head: Rid, l: seq<Rid>)
    requires r in cells && (n.blockedTail != 0 ==> n.blockedTail in cells)
    requires CancelChain(cells, head, l)
    ensures CancelChain(Appended(cells, n, r), head, l)
  {
    forall i: nat | i < |l| ensures CancelLinked(Appended(cells, n, r), l, i) {
      assert CancelLinked(cells, l, i);
    }
  }

  lemma OtherWaiters(cells: map<Rid, ReqCell>, nodes: map<Id, NodeCell>, f: Files, r: Rid, id: Id, i: Id)
    requires Waiters(cells, nodes, f) && Listed(f) && Outside(f, r, Hand) && r in cells
    requires id in nodes && i in nodes && i != id
    requires nodes[id].blockedTail != 0 ==> nodes[id].blockedTail in cells
    ensures WaiterList(Appended(cells, nodes[id], r), nodes[i], ListOf(f, Blocked(i)))
  {
    assert WaiterList(cells, nodes[id], ListOf(f, Blocked(id)));
    assert WaiterList(cells, nodes[i], ListOf(f, Blocked(i)));
    NotTail(cells, nodes[id], f, id, Blocked(i), nodes[i].blockedHead);
    ChainAppended(cells, nodes[id], r, nodes[i].blockedHead, ListOf(f, Blocked(i)));
  }

  lemma NotTail(cells: map<Rid, ReqCell>, n: NodeCell, f: Files, id: Id, p: Place, head: Rid)
    requires WaiterList(cells, n, ListOf(f, Blocked(id))) && Listed(f) && p != Blocked(id)
    requires Chain(cells, head, ListOf(f, p))
    ensures n.blockedTail !in ListOf(f, p)
  {
    TailLive(cells, n, ListOf(f, Blocked(id)));
    if ListOf(f, Blocked(id)) != [] {
      TailElsewhere(f, ListOf(f, Blocked(id)), id, p);
    } else {
      forall i: nat | i < |ListOf(f, p)| ensures ListOf(f, p)[i] != 0 { assert Linked(cells, ListOf(f, p), i); }
    }
  }

  lemma WaiterBlocked(cells: map<Rid, ReqCell>, nodes: map<Id, NodeCell>, f: Files, h: Files, r: Rid, id: Id,
                 pending: Rid, cancelled: Rid, c: seq<Rid>, w: seq<Rid>)
    requires Linkage(cells, nodes, f, pending, cancelled, c, w) && Listed(f) && id in nodes
    requires r in cells && r != 0 && Outside(f, r, Hand)
    requires Relisted(f, h, Blocked(id), ListOf(f, Blocked(id)) + [r])
    ensures nodes[id].blockedTail != 0 ==> nodes[id].blockedTail in cells
    ensures Linkage(Appended(cells, nodes[id], r), nodes[id := Tailed(nodes[id], r)], h, pending, cancelled, c, w)
  {
    assert WaiterList(cells, nodes[id], ListOf(f, Blocked(id)));
    TailLive(cells, nodes[id], ListOf(f, Blocked(id)));
    NotTail(cells, nodes[id], f, id, Pending, pending);
    NotTail(cells, nodes[id], f, id, Work, From(ListOf(f, Work), 0));
    ChainAppended(cells, nodes[id], r, pending, ListOf(f, Pending));
    ChainAppended(cells, nodes[id], r, From(ListOf(f, Work), 0), ListOf(f, Work));
    CancelAppended(cells, nodes[id], r, cancelled, c);
    CancelAppended(cells, nodes[id], r, From(w, 0), w);
    WaitersAppended(cells, nodes, f, h, r, id);
  }

  lemma WaitersAppended(cells: map<Rid, ReqCell>, nodes: map<Id, NodeCell>, f: Files, h: Files, r: Rid, id: Id)
    requires Waiters(cells, nodes, f) && Listed(f) && id in nodes
    requires r in cells && r != 0 && Outside(f, r, Hand)
    requires Relisted(f, h, Blocked(id), ListOf(f, Blocked(id)) + [r])
    ensures nodes[id].blockedTail != 0 ==> nodes[id].blockedTail in cells
    ensures Waiters(Appended(cells, nodes[id], r), nodes[id := Tailed(nodes[id], r)], h)
  {
    var l := ListOf(f, Blocked(id));
    assert WaiterList(cells, nodes[id], l);
    TailLive(cells, nodes[id], l);
    var after, ns := Appended(cells, nodes[id], r), nodes[id := Tailed(nodes[id], r)];
    forall i: Id | i in ns ensures WaiterList(after, ns[i], ListOf(h, Blocked(i))) {
      if i == id {
        WaiterAppended(cells, nodes[id], l, r);
      } else {
        OtherWaiters(cells, nodes, f, r, id, i);
        assert ListOf(h, Blocked(i)) == ListOf(f, Blocked(i));
      }
    }
    forall i: Id | i !in ns ensures ListOf(h, Blocked(i)) == [] {
      assert ListOf(h, Blocked(i)) == ListOf(f, Blocked(i));
    }
  }

  // ----- nodes

  lemma NodeCreated(cells: map<Rid, ReqCell>, nodes: map<Id, NodeCell>, f: Files, id: Id)
    requires Waiters(cells, nodes, f) && id !in nodes
    ensures Waiters(cells, nodes[id := NodeCell(PLACEHOLDER, 0, 0)], f)
  {
    var after := nodes[id := NodeCell(PLACEHOLDER, 0, 0)];
    forall i: Id | i in after ensures WaiterList(cells, after[i], ListOf(f, Blocked(i))) {
      if i == id {
        assert ListOf(f, Blocked(i)) == [];
      } else {
        assert WaiterList(cells, nodes[i], ListOf(f, Blocked(i)));
      }
    }
    forall i: Id | i !in after ensures ListOf(f, Blocked(i)) == [] {}
  }

  lemma NodeErased(cells: map<Rid, ReqCell>, nodes: map<Id, NodeCell>, f: Files, id: Id)
    requires Waiters(cells, nodes, f) && ListOf(f, Blocked(id)) == []
    ensures Waiters(cells, nodes - {id}, f)
  {
    forall i: Id | i in nodes && i != id ensures WaiterList(cells, nodes[i], ListOf(f, Blocked(i))) {}
    forall i: Id | i !in nodes - {id} ensures ListOf(f, Blocked(i)) == [] {}
  }

  /** A node changed in place, its list untouched. */
  lemma NodeChanged(cells: map<Rid, ReqCell>, nodes: map<Id, NodeCell>, f: Files, id: Id, n: Node)
    requires Waiters(cells, nodes, f) && id in nodes
    ensures Waiters(cells, nodes[id := nodes[id].(node := n)], f)
  {
    var after := nodes[id := nodes[id].(node := n)];
    forall i: Id | i in after ensures WaiterList(cells, after[i], ListOf(f, Blocked(i))) {
      assert WaiterList(cells, nodes[i], ListOf(f, Blocked(i)));
    }
    forall i: Id | i !in after ensures ListOf(f, Blocked(i)) == [] {}
  }

  /** blocked_head tells whether anyone waits. */
  lemma HeadTells(cells: map<Rid, ReqCell>, nodes: map<Id, NodeCell>, f: Files, id: Id)
    requires Waiters(cells, nodes, f) && id in nodes
    ensures nodes[id].blockedHead == 0 <==> ListOf(f, Blocked(id)) == []
  {
    var l := ListOf(f, Blocked(id));
    assert WaiterList(cells, nodes[id], l);
    assert l != [] ==> Linked(cells, l, 0);
  }
}
