/** The linked queue of the worker pool, as the code under its mutex changes it. */
module WorkQueue {

  type Job = nat   // a function and its argument

  class Item {
    const job: Job
    var next: Item?

    constructor (job: Job)
      ensures this.job == job && next == null
    {
      this.job := job;
      next := null;
    }
  }

  class Queue {
    var head: Item?
    var tail: Item?
    var stop: bool
    // the items from head to tail
    ghost var items: seq<Item>

    ghost predicate Valid()
      reads this, items
    {
      && (if items == [] then head == null && tail == null else head == items[0] && tail == items[|items| - 1])
      && (forall i, j :: 0 <= i < j < |items| ==> items[i] != items[j])
      && (forall i {:trigger items[i].next} :: 0 <= i < |items| ==>
            items[i].next == if i + 1 < |items| then items[i + 1] else null)
    }

    ghost function Contents(): (s: seq<Job>)
      reads this, items
      ensures |s| == |items|
    {
      seq(|items|, i requires 0 <= i < |items| reads this, items => items[i].job)
    }

    /** work_queue_init. */
    constructor ()
      ensures Valid() && Contents() == [] && !stop
    {
      head, tail, stop, items := null, null, false, [];
    }

    /** The critical section of worker_pool_push: link the new item behind the tail. */
    method Push(job: Job)
      requires Valid()
      modifies this, items
      ensures Valid() && items != [] && fresh(items[|items| - 1]) && items == old(items) + [items[|items| - 1]]
      ensures Contents() == old(Contents()) + [job] && stop == old(stop)
    {
      var item := new Item(job);
      if tail != null {
        tail.next := item;
        tail := item;
      } else {
        head, tail := item, item;
      }
      items := items + [item];
    }

    /** The critical section of work_queue_pop, once it need not wait: the oldest item, or null to quit. */
    method Pop() returns (item: Item?)
      requires Valid() && (stop || head != null)
      modifies this
      ensures Valid() && stop == old(stop)
      ensures item == null <==> old(Contents()) == []
      ensures item == null ==> stop && Contents() == []
      ensures item != null ==> old(Contents()) == [item.job] + Contents() && items == old(items)[1..]
    {
      if stop && head == null {
        return null;
      }
      item := head;
      assert item == items[0] && item.next == items[0].next;
      head := item.next;
      if head == null {
        tail := null;
      }
      items := items[1..];
    }

    /** The condition of the wait loop. */
    method MustWait() returns (wait: bool)
      requires Valid()
      ensures wait <==> !stop && Contents() == []
    {
      wait := !stop && head == null;
    }
  }
}
