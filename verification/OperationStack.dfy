/** The inbox in memory: linked operations, pushed in front and drained in place. */
module OperationStack {
  import opened Sequences

  type Op = nat   // what to register, publish or release

  class OpNode {
    const op: Op
    var next: OpNode?

    constructor (op: Op)
      ensures this.op == op && next == null
    {
      this.op := op;
      next := null;
    }
  }

  /** The inbox as the thread sees it that runs without interference. */
  class ResInbox {
    var head: OpNode?
    // the nodes from the head on
    ghost var nodes: seq<OpNode>

    ghost predicate Valid()
      reads this, nodes
    {
      && head == (if nodes == [] then null else nodes[0])
      && (forall i, j :: 0 <= i < j < |nodes| ==> nodes[i] != nodes[j])
      && (forall i {:trigger nodes[i].next} :: 0 <= i < |nodes| ==>
            nodes[i].next == if i + 1 < |nodes| then nodes[i + 1] else null)
    }

    ghost function Ops(): (s: seq<Op>)
      reads this, nodes
      ensures |s| == |nodes|
    {
      seq(|nodes|, i requires 0 <= i < |nodes| reads this, nodes => nodes[i].op)
    }

    /** curl_resource_set_owner_thread, on a new loop. */
    constructor ()
      ensures Valid() && Ops() == []
    {
      head, nodes := null, [];
    }

    /** inbox_push, with no other thread in between. */
    method Push(op: Op)
      requires Valid()
      modifies this
      ensures Valid() && Ops() == [op] + old(Ops()) && nodes != [] && fresh(nodes[0]) && nodes[1..] == old(nodes)
    {
      var node := new OpNode(op);
      node.next := head;
      head := node;
      nodes := [node] + nodes;
    }

    /** curl_resource_inbox_drain: take the stack, turn it around in place, apply it in push order. */
    method Drain() returns (applied: seq<Op>)
      requires Valid()
      modifies this, nodes
      ensures Valid() && Ops() == [] && applied == Reverse(old(Ops()))
    {
      var cur := head;
      ghost var ops, l := Ops(), nodes;
      head, nodes := null, [];
      var rev: OpNode? := null;
      ghost var i := 0;
      while cur != null
        invariant 0 <= i <= |l| && Ops() == [] && Valid()
        invariant cur == (if i < |l| then l[i] else null) && rev == (if i > 0 then l[i - 1] else null)
        invariant forall k {:trigger l[k].next} :: i <= k < |l| ==> l[k].next == if k + 1 < |l| then l[k + 1] else null
        invariant forall k {:trigger l[k].next} :: 0 <= k < i ==> l[k].next == if k > 0 then l[k - 1] else null
        decreases |l| - i
      {
        var next := cur.next;
        cur.next := rev;
        rev := cur;
        cur := next;
        i := i + 1;
      }
      applied := [];
      var op := rev;
      assert ops[|l|..] == [];
      while op != null
        invariant 0 <= i <= |l| && op == (if i > 0 then l[i - 1] else null)
        invariant applied == Reverse(ops[i..])
        decreases i
      {
        assert ops[i - 1..][1..] == ops[i..];
        applied := applied + [op.op];
        op := op.next;
        i := i - 1;
      }
      assert ops[0..] == ops;
    }
  }
}
