/**
 The inbox through which any thread sends resource operations to the loop thread: a stack that
 producers push with compare-and-swap and the loop thread takes as a whole. Steps are atomic and
 sequentially consistent; a compare-and-swap may fail for no reason, and the address of a freed
 operation may be used again at once.
*/
module Inbox {
  import opened OperationStack
  import opened Sequences

  type Addr = nat   // 0 is NULL

  datatype Cell = Cell(op: Op, next: Addr)

  /** A thread inside inbox_push: `seen` is the head it has read. */
  datatype Producer =
    | Entering(node: Addr)
    | Loaded(node: Addr, seen: Addr)
    | Linked(node: Addr, seen: Addr)

  /** The loop thread: outside inbox_drain, in its first loop, or in its second. */
  datatype Consumer = Resting | Reversing(cur: Addr, rev: Addr) | Applying(op: Addr)

  /**
   `since`: the operations whose compare-and-swap has succeeded since the loop thread last took or
   reset the stack, in that order. `batch`: what it took last. `done`: what it has applied of it.
   `applied` and `lost` are the operations applied and the operations reset away, over the whole life.
  */
  datatype State = State(
    memory: map<Addr, Cell>, head: Addr, producers: map<nat, Producer>, consumer: Consumer,
    since: seq<Op>, batch: seq<Op>, done: seq<Op>, applied: seq<Op>, lost: multiset<Op>, pushed: multiset<Op>,
    stack: seq<Addr>, left: seq<Addr>, right: seq<Addr>)

  datatype Step =
    | Enter(t: nat, node: Addr, op: Op) | Load(t: nat) | Link(t: nat) | Swap(t: nat) | SwapFails(t: nat)
    | Take | ReverseOne | ReverseEnd | ApplyOne | ApplyEnd
    | Reset

  function Empty(): State {
    State(map[], 0, map[], Resting, [], [], [], [], multiset{}, multiset{}, [], [], [])
  }

  predicate Enabled(s: State, e: Step) {
    match e
    case Enter(t, node, op) => t !in s.producers && node != 0 && node !in s.memory
    case Load(t) => t in s.producers && s.producers[t].Entering?
    case Link(t) => t in s.producers && s.producers[t].Loaded? && s.producers[t].node in s.memory
    case Swap(t) =>
      t in s.producers && s.producers[t].Linked? && s.producers[t].node in s.memory && s.head == s.producers[t].seen
    case SwapFails(t) => t in s.producers && s.producers[t].Linked?
    case Take => s.consumer == Resting
    case ReverseOne => s.consumer.Reversing? && s.consumer.cur != 0 && s.consumer.cur in s.memory && s.left != []
    case ReverseEnd => s.consumer.Reversing? && s.consumer.cur == 0
    case ApplyOne => s.consumer.Applying? && s.consumer.op != 0 && s.consumer.op in s.memory && s.right != []
    case ApplyEnd => s.consumer.Applying? && s.consumer.op == 0
    case Reset => s.consumer == Resting
  }

  function Apply(s: State, e: Step): State
    requires Enabled(s, e)
  {
    match e
    case Enter(t, node, op) =>
      s.(memory := s.memory[node := Cell(op, 0)], producers := s.producers[t := Entering(node)])
    case Load(t) => s.(producers := s.producers[t := Loaded(s.producers[t].node, s.head)])
    case Link(t) =>
      var node, seen := s.producers[t].node, s.producers[t].seen;
      s.(memory := s.memory[node := s.memory[node].(next := seen)], producers := s.producers[t := Linked(node, seen)])
    case Swap(t) =>
      var node := s.producers[t].node;
      s.(head := node, producers := s.producers - {t}, stack := [node] + s.stack,
         since := s.since + [s.memory[node].op], pushed := s.pushed + multiset{s.memory[node].op})
    case SwapFails(t) => s.(producers := s.producers[t := Loaded(s.producers[t].node, s.head)])
    case Take =>
      s.(head := 0, consumer := Reversing(s.head, 0), left := s.stack, stack := [],
         batch := s.since, since := [], done := [])
    case ReverseOne =>
      var cur, rev := s.consumer.cur, s.consumer.rev;
      s.(memory := s.memory[cur := s.memory[cur].(next := rev)], consumer := Reversing(s.memory[cur].next, cur),
         left := s.left[1..], right := [cur] + s.right)
    case ReverseEnd => s.(consumer := Applying(s.consumer.rev))
    case ApplyOne =>
      var op := s.consumer.op;
      s.(consumer := Applying(s.memory[op].next), memory := s.memory - {op}, right := s.right[1..],
         done := s.done + [s.memory[op].op], applied := s.applied + [s.memory[op].op])
    case ApplyEnd => s.(consumer := Resting)
    case Reset => s.(head := 0, stack := [], lost := s.lost + multiset(s.since), since := [])
  }

  ghost predicate Run(s: State, steps: seq<Step>, t: State)
    decreases steps
  {
    if steps == [] then s == t else Enabled(s, steps[0]) && Run(Apply(s, steps[0]), steps[1..], t)
  }

  ghost predicate Reachable(s: State) {
    exists steps: seq<Step> :: Run(Empty(), steps, s)
  }

  // ----- lists in memory

  /** `head` leads through the cells at `l`, in order, to NULL. */
  ghost predicate ListAt(memory: map<Addr, Cell>, head: Addr, l: seq<Addr>)
    decreases l
  {
    if l == [] then head == 0
    else head == l[0] && head != 0 && head in memory && ListAt(memory, memory[head].next, l[1..])
  }

  function OpAt(memory: map<Addr, Cell>, a: Addr): Op {
    if a in memory then memory[a].op else 0
  }

  function OpsAt(memory: map<Addr, Cell>, l: seq<Addr>): seq<Op>
    decreases l
  {
    if l == [] then [] else [OpAt(memory, l[0])] + OpsAt(memory, l[1..])
  }

  lemma {:induction false} ListLive(memory: map<Addr, Cell>, head: Addr, l: seq<Addr>)
    requires ListAt(memory, head, l)
    ensures forall a <- l :: a in memory && a != 0
    decreases l
  {
    if l == [] {
    } else {
      ListLive(memory, memory[head].next, l[1..]);
      assert forall a <- l :: a == l[0] || a in l[1..];
    }
  }

  /** A list is untouched by changes elsewhere. */
  lemma {:induction false} ListFrame(memory: map<Addr, Cell>, after: map<Addr, Cell>, head: Addr, l: seq<Addr>)
    requires ListAt(memory, head, l) && forall a <- l :: a in after && a in memory && after[a] == memory[a]
    ensures ListAt(after, head, l) && OpsAt(after, l) == OpsAt(memory, l)
    decreases l
  {
    if l == [] {
    } else {
      assert l[0] in l;
      ListFrame(memory, after, memory[head].next, l[1..]);
    }
  }

  /** The operations do not depend on the links. */
  lemma {:induction false} OpsFrame(memory: map<Addr, Cell>, after: map<Addr, Cell>, l: seq<Addr>)
    requires forall a <- l :: OpAt(after, a) == OpAt(memory, a)
    ensures OpsAt(after, l) == OpsAt(memory, l)
    decreases l
  {
    if l == [] {
    } else {
      assert l[0] in l;
      OpsFrame(memory, after, l[1..]);
    }
  }

  // ----- the invariant

  ghost predicate Lists(s: State) {
    && ListAt(s.memory, s.head, s.stack)
    && match s.consumer
       case Resting => s.left == [] && s.right == []
       case Reversing(cur, rev) => ListAt(s.memory, cur, s.left) && ListAt(s.memory, rev, s.right)
       case Applying(op) => s.left == [] && ListAt(s.memory, op, s.right)
  }

  /** No two lists and no two producers share a cell. */
  ghost predicate Separate(s: State) {
    && Distinct(s.stack + s.left + s.right)
    && (forall t <- s.producers ::
          && s.producers[t].node != 0 && s.producers[t].node in s.memory
          && s.producers[t].node !in s.stack + s.left + s.right)
    && (forall t <- s.producers, u <- s.producers :: t != u ==> s.producers[t].node != s.producers[u].node)
  }

  ghost predicate Prepared(s: State) {
    forall t <- s.producers ::
      s.producers[t].Linked? && s.producers[t].node in s.memory ==>
        s.memory[s.producers[t].node].next == s.producers[t].seen
  }

  /** What is left of the batch, in the order it will be applied. */
  function Rest(s: State): seq<Op> {
    Reverse(OpsAt(s.memory, s.left)) + OpsAt(s.memory, s.right)
  }

  ghost predicate InOrder(s: State) {
    s.since == Reverse(OpsAt(s.memory, s.stack)) && s.batch == s.done + Rest(s)
  }

  ghost predicate Totals(s: State) {
    s.pushed == multiset(s.applied) + multiset(Rest(s)) + multiset(s.since) + s.lost
  }

  ghost predicate Inv(s: State) {
    Lists(s) && Separate(s) && Prepared(s) && InOrder(s) && Totals(s)
  }

  /** The cells of the lists are as they were. */
  ghost predicate Untouched(s: State, after: map<Addr, Cell>) {
    forall a <- s.stack + s.left + s.right :: a in s.memory && a in after && after[a] == s.memory[a]
  }

  lemma AllLive(s: State)
    requires Lists(s)
    ensures forall a <- s.stack + s.left + s.right :: a in s.memory && a != 0
  {
    ListLive(s.memory, s.head, s.stack);
    match s.consumer
    case Resting =>
    case Reversing(cur, rev) =>
      ListLive(s.memory, cur, s.left);
      ListLive(s.memory, rev, s.right);
    case Applying(op) => ListLive(s.memory, op, s.right);
  }

  lemma FrameLists(s: State, after: map<Addr, Cell>)
    requires Lists(s) && Untouched(s, after)
    ensures Lists(s.(memory := after))
    ensures OpsAt(after, s.stack) == OpsAt(s.memory, s.stack) && Rest(s.(memory := after)) == Rest(s)
  {
    forall a <- s.stack ensures a in s.stack + s.left + s.right {}
    forall a <- s.left ensures a in s.stack + s.left + s.right {}
    forall a <- s.right ensures a in s.stack + s.left + s.right {}
    ListFrame(s.memory, after, s.head, s.stack);
    OpsFrame(s.memory, after, s.left);
    OpsFrame(s.memory, after, s.right);
    match s.consumer
    case Resting =>
    case Reversing(cur, rev) =>
      ListFrame(s.memory, after, cur, s.left);
      ListFrame(s.memory, after, rev, s.right);
    case Applying(op) => ListFrame(s.memory, after, op, s.right);
  }

  // ----- producers

  predicate ProducerStep(e: Step) {
    e.Enter? || e.Load? || e.Link? || e.SwapFails?
  }

  /** Until its compare-and-swap succeeds, a producer touches only its own cell. */
  lemma ProducerKeeps(s: State, e: Step)
    requires Inv(s) && Enabled(s, e) && ProducerStep(e)
    ensures Inv(Apply(s, e))
  {
    AllLive(s);
    ProducerUntouched(s, e);
    ProducerLists(s, e);
    ProducerSeparate(s, e);
  }

  lemma ProducerUntouched(s: State, e: Step)
    requires Separate(s) && Enabled(s, e) && ProducerStep(e)
    requires forall a <- s.stack + s.left + s.right :: a in s.memory
    ensures Untouched(s, Apply(s, e).memory)
  {}

  lemma ProducerLists(s: State, e: Step)
    requires Lists(s) && InOrder(s) && Totals(s) && Enabled(s, e) && ProducerStep(e) && Untouched(s, Apply(s, e).memory)
    ensures Lists(Apply(s, e)) && InOrder(Apply(s, e)) && Totals(Apply(s, e))
  {
    var u := Apply(s, e);
    ProducerShape(s, e);
    FrameLists(s, u.memory);
    SameLists(s.(memory := u.memory), u);
    SameTotals(s, s.(memory := u.memory), u);
  }

  lemma ProducerShape(s: State, e: Step)
    requires Enabled(s, e) && ProducerStep(e)
    ensures var u := Apply(s, e); u == s.(memory := u.memory, producers := u.producers)
  {}

  lemma SameLists(s: State, u: State)
    requires Lists(s) && u == s.(producers := u.producers)
    ensures Lists(u) && Rest(u) == Rest(s)
  {}

  lemma SameTotals(s: State, v: State, u: State)
    requires InOrder(s) && Totals(s) && v == s.(memory := v.memory) && u == v.(producers := u.producers)
    requires OpsAt(v.memory, s.stack) == OpsAt(s.memory, s.stack) && Rest(v) == Rest(s) == Rest(u)
    ensures InOrder(u) && Totals(u)
  {}

  lemma ProducerSeparate(s: State, e: Step)
    requires Separate(s) && Prepared(s) && Enabled(s, e) && ProducerStep(e)
    requires forall a <- s.stack + s.left + s.right :: a in s.memory
    ensures Separate(Apply(s, e)) && Prepared(Apply(s, e))
  {}

  /** A compare-and-swap that succeeds pushes the cell, whatever has become of the head in between. */
  lemma SwapKeeps(s: State, t: nat)
    requires Inv(s) && Enabled(s, Swap(t))
    ensures Inv(Apply(s, Swap(t)))
  {
    var u, node := Apply(s, Swap(t)), s.producers[t].node;
    assert s.memory[node].next == s.head;
    assert u.stack[1..] == s.stack && u.stack[0] == node;
    SwapSeparate(s, t);
    SwapTotals(s, s.memory[node].op);
  }

  lemma SwapSeparate(s: State, t: nat)
    requires Separate(s) && Prepared(s) && Enabled(s, Swap(t))
    ensures Separate(Apply(s, Swap(t))) && Prepared(Apply(s, Swap(t)))
  {
    var u, node := Apply(s, Swap(t)), s.producers[t].node;
    assert u.stack + u.left + u.right == [node] + (s.stack + s.left + s.right);
  }

  lemma SwapTotals(s: State, op: Op)
    requires Totals(s)
    ensures s.pushed + multiset{op} == multiset(s.applied) + multiset(Rest(s)) + multiset(s.since + [op]) + s.lost
  {
    assert multiset(s.since + [op]) == multiset(s.since) + multiset{op};
  }

  // ----- the loop thread

  lemma TakeKeeps(s: State)
    requires Inv(s) && Enabled(s, Take)
    ensures Inv(Apply(s, Take))
  {
    TakeSeparate(s);
    TakeOrder(s);
  }

  lemma TakeSeparate(s: State)
    requires Lists(s) && Separate(s) && Prepared(s) && Enabled(s, Take)
    ensures var u := Apply(s, Take); Lists(u) && Separate(u) && Prepared(u)
  {
    var u := Apply(s, Take);
    assert u.stack + u.left + u.right == s.stack + s.left + s.right;
  }

  lemma TakeOrder(s: State)
    requires Lists(s) && InOrder(s) && Totals(s) && Enabled(s, Take)
    ensures var u := Apply(s, Take); InOrder(u) && Totals(u)
  {
    var u := Apply(s, Take);
    assert Rest(u) == s.since + [] == s.since;
    assert Rest(s) == [];
    assert u.done + Rest(u) == s.since;
  }

  lemma ResetKeeps(s: State)
    requires Inv(s) && Enabled(s, Reset)
    ensures Inv(Apply(s, Reset))
  {
    ResetSeparate(s);
    assert Rest(Apply(s, Reset)) == Rest(s);
  }

  lemma ResetSeparate(s: State)
    requires Lists(s) && Separate(s) && Prepared(s) && Enabled(s, Reset)
    ensures var u := Apply(s, Reset); Lists(u) && Separate(u) && Prepared(u)
  {
    var u := Apply(s, Reset);
    assert u.stack + u.left + u.right == [];
  }

  lemma ReverseOneKeeps(s: State)
    requires Inv(s) && Enabled(s, ReverseOne)
    ensures Inv(Apply(s, ReverseOne))
  {
    var u, cur, rev := Apply(s, ReverseOne), s.consumer.cur, s.consumer.rev;
    assert cur == s.left[0];
    ReversedSeparate(s);
    ReversedLists(s);
    ReversedRest(s);
  }

  lemma ReversedSeparate(s: State)
    requires Separate(s) && Prepared(s) && Enabled(s, ReverseOne) && s.consumer.cur == s.left[0]
    ensures Separate(Apply(s, ReverseOne)) && Prepared(Apply(s, ReverseOne))
  {
    var u, cur := Apply(s, ReverseOne), s.consumer.cur;
    var all, next := s.stack + s.left + s.right, u.stack + u.left + u.right;
    assert cur in all by { assert all[|s.stack|] == cur; }
    MovedDistinct(s.stack, s.left, s.right);
    forall a ensures a in next <==> a in all {}
  }

  lemma MovedDistinct(x: seq<Addr>, y: seq<Addr>, z: seq<Addr>)
    requires y != [] && Distinct(x + y + z)
    ensures Distinct(x + y[1..] + ([y[0]] + z))
    ensures forall a :: a in x + y[1..] + ([y[0]] + z) <==> a in x + y + z
  {
    var l, m, k := x + y + z, x + y[1..] + ([y[0]] + z), |x| + |y| - 1;
    forall i, j | 0 <= i < j < |m| ensures m[i] != m[j] {
      var a := if i < |x| then i else if i < k then i + 1 else if i == k then |x| else i;
      var b := if j < |x| then j else if j < k then j + 1 else if j == k then |x| else j;
      assert m[i] == l[a] && m[j] == l[b] && a != b;
    }
    forall i | 0 <= i < |m|
      ensures m[i] == if i < |x| then l[i] else if i < k then l[i + 1] else if i == k then l[|x|] else l[i]
    {}
    forall i | 0 <= i < |l|
      ensures l[i] == if i < |x| then m[i] else if i == |x| then m[k] else if i <= k then m[i - 1] else m[i]
    {}
  }

  lemma ReversedLists(s: State)
    requires Lists(s) && Separate(s) && Enabled(s, ReverseOne)
    ensures Lists(Apply(s, ReverseOne))
  {
    var u, cur, rev := Apply(s, ReverseOne), s.consumer.cur, s.consumer.rev;
    AllLive(s);
    Apart(s.stack, s.left, s.right);
    forall a <- s.stack ensures a in s.stack + s.left + s.right && a != cur {}
    forall a <- s.left[1..] ensures a in s.stack + s.left + s.right && a != cur {}
    forall a <- s.right ensures a in s.stack + s.left + s.right && a != cur {}
    ListFrame(s.memory, u.memory, s.head, s.stack);
    ListFrame(s.memory, u.memory, s.memory[cur].next, s.left[1..]);
    ListFrame(s.memory, u.memory, rev, s.right);
    assert u.right[1..] == s.right;
  }

  lemma Apart(x: seq<Addr>, y: seq<Addr>, z: seq<Addr>)
    requires y != [] && Distinct(x + y + z)
    ensures y[0] !in x && y[0] !in y[1..] && y[0] !in z
  {
    var l := x + y + z;
    assert l[|x|] == y[0];
    forall i | 0 <= i < |x| ensures x[i] != y[0] { assert l[i] == x[i]; }
    forall i | 0 <= i < |y[1..]| ensures y[1..][i] != y[0] { assert l[|x| + 1 + i] == y[1..][i]; }
    forall i | 0 <= i < |z| ensures z[i] != y[0] { assert l[|x| + |y| + i] == z[i]; }
  }

  lemma ReversedRest(s: State)
    requires Enabled(s, ReverseOne) && s.consumer.cur == s.left[0]
    ensures Rest(Apply(s, ReverseOne)) == Rest(s)
    ensures OpsAt(Apply(s, ReverseOne).memory, s.stack) == OpsAt(s.memory, s.stack)
  {
    var u := Apply(s, ReverseOne);
    OpsFrame(s.memory, u.memory, s.stack);
    OpsFrame(s.memory, u.memory, s.left[1..]);
    OpsFrame(s.memory, u.memory, s.right);
    var ops := OpsAt(s.memory, s.left);
    assert ops[1..] == OpsAt(s.memory, s.left[1..]) && ops[0] == OpAt(s.memory, s.left[0]);
    assert u.right[1..] == s.right;
  }

  lemma ApplyOneKeeps(s: State)
    requires Inv(s) && Enabled(s, ApplyOne)
    ensures Inv(Apply(s, ApplyOne))
  {
    AppliedLists(s);
    AppliedSeparate(s);
    AppliedRest(s);
  }

  lemma AppliedLists(s: State)
    requires Lists(s) && Separate(s) && Enabled(s, ApplyOne)
    ensures Lists(Apply(s, ApplyOne)) && s.consumer.op == s.right[0]
  {
    var u, op := Apply(s, ApplyOne), s.consumer.op;
    AllLive(s);
    assert s.stack + s.left + s.right == s.stack + s.right + [];
    Apart(s.stack, s.right, []);
    forall a <- s.stack ensures a in s.stack + s.left + s.right && a != op {}
    forall a <- s.right[1..] ensures a in s.stack + s.left + s.right && a != op {}
    ListFrame(s.memory, u.memory, s.head, s.stack);
    ListFrame(s.memory, u.memory, s.memory[op].next, s.right[1..]);
  }

  lemma AppliedSeparate(s: State)
    requires Lists(s) && Separate(s) && Prepared(s) && Enabled(s, ApplyOne)
    ensures Separate(Apply(s, ApplyOne)) && Prepared(Apply(s, ApplyOne))
  {
    var u := Apply(s, ApplyOne);
    var all, next, k := s.stack + s.left + s.right, u.stack + u.left + u.right, |s.stack|;
    assert s.left == [] && all[k] == s.consumer.op;
    assert forall i :: 0 <= i < |next| ==> next[i] == if i < k then all[i] else all[i + 1];
    forall i, j | 0 <= i < j < |next| ensures next[i] != next[j] {
      var a, b := if i < k then i else i + 1, if j < k then j else j + 1;
      assert next[i] == all[a] && next[j] == all[b] && a < b;
    }
  }

  lemma AppliedRest(s: State)
    requires Lists(s) && Separate(s) && InOrder(s) && Totals(s) && Enabled(s, ApplyOne)
    ensures InOrder(Apply(s, ApplyOne)) && Totals(Apply(s, ApplyOne))
  {
    AppliedOps(s);
    var u, o := Apply(s, ApplyOne), s.memory[s.consumer.op].op;
    OneApplied(s.done, o, Rest(u));
    OneCounted(s.applied, o, Rest(u), multiset(s.since), s.lost);
  }

  lemma AppliedOps(s: State)
    requires Lists(s) && Separate(s) && Enabled(s, ApplyOne)
    ensures var u := Apply(s, ApplyOne);
      && Rest(s) == [s.memory[s.consumer.op].op] + Rest(u) && OpsAt(u.memory, u.stack) == OpsAt(s.memory, s.stack)
  {
    var u := Apply(s, ApplyOne);
    assert s.stack + s.left + s.right == s.stack + s.right + [];
    Apart(s.stack, s.right, []);
    OpsFrame(s.memory, u.memory, s.stack);
    OpsFrame(s.memory, u.memory, s.right[1..]);
    assert Rest(u) == OpsAt(s.memory, s.right[1..]);
  }

  lemma OneApplied(done: seq<Op>, o: Op, rest: seq<Op>)
    ensures done + ([o] + rest) == done + [o] + rest
  {}

  lemma OneCounted(applied: seq<Op>, o: Op, rest: seq<Op>, since: multiset<Op>, lost: multiset<Op>)
    ensures multiset(applied) + multiset([o] + rest) + since + lost
            == multiset(applied + [o]) + multiset(rest) + since + lost
  {
    assert multiset(applied + [o]) == multiset(applied) + multiset{o};
    assert multiset([o] + rest) == multiset{o} + multiset(rest);
  }

  lemma EndKeeps(s: State, e: Step)
    requires Inv(s) && Enabled(s, e) && (e.ReverseEnd? || e.ApplyEnd?)
    ensures Inv(Apply(s, e))
  {}

  lemma StepKeeps(s: State, e: Step)
    requires Inv(s) && Enabled(s, e)
    ensures Inv(Apply(s, e))
  {
    if ProducerStep(e) { ProducerKeeps(s, e); }
    else if e.Swap? { SwapKeeps(s, e.t); }
    else if e.Take? { TakeKeeps(s); }
    else if e.ReverseOne? { ReverseOneKeeps(s); }
    else if e.ApplyOne? { ApplyOneKeeps(s); }
    else if e.Reset? { ResetKeeps(s); }
    else { EndKeeps(s, e); }
  }

  lemma {:induction false} RunKeeps(s: State, steps: seq<Step>, t: State)
    requires Inv(s) && Run(s, steps, t)
    ensures Inv(t)
    decreases steps
  {
    if steps == [] {
    } else {
      StepKeeps(s, steps[0]);
      RunKeeps(Apply(s, steps[0]), steps[1..], t);
    }
  }

  lemma ReachableInv(s: State)
    requires Reachable(s)
    ensures Inv(s)
  {
    var steps :| Run(Empty(), steps, s);
    RunKeeps(Empty(), steps, s);
  }

  // ----- what the inbox promises

  /**
   When a drain ends it has applied exactly the operations whose compare-and-swap succeeded since the
   previous drain or reset, each once and in that order.
  */
  lemma DrainAppliesBatch(s: State)
    requires Reachable(s) && Enabled(s, ApplyEnd)
    ensures s.done == s.batch
  {
    ReachableInv(s);
  }

  /** A drain takes everything that was pushed since. */
  lemma DrainTakesAll(s: State)
    requires Reachable(s) && Enabled(s, Take)
    ensures Apply(s, Take).batch == s.since == Reverse(OpsAt(s.memory, s.stack)) && Apply(s, Take).since == []
  {
    ReachableInv(s);
  }

  /** Nothing is lost or doubled but by a reset, which loses exactly what was pushed since the last drain. */
  lemma NothingLostButByReset(s: State)
    requires Reachable(s)
    ensures s.pushed == multiset(s.applied) + multiset(Rest(s)) + multiset(s.since) + s.lost
    ensures Enabled(s, Reset) ==> Apply(s, Reset).lost == s.lost + multiset(s.since)
  {
    ReachableInv(s);
  }

  // ----- what the steps say

  /**
   The inbox as one atomic list, told by the steps alone: a thread brings an operation when it enters,
   puts it at the end when its compare-and-swap succeeds, and the loop thread takes all there is, or
   throws it away.
  */
  datatype Log = Log(brought: map<nat, Op>, waiting: seq<Op>, taken: seq<Op>, thrown: multiset<Op>)

  function Noted(l: Log, e: Step): Log {
    match e
    case Enter(t, node, op) => l.(brought := l.brought[t := op])
    case Swap(t) =>
      if t in l.brought then l.(brought := l.brought - {t}, waiting := l.waiting + [l.brought[t]]) else l
    case Take => l.(waiting := [], taken := l.taken + l.waiting)
    case Reset => l.(waiting := [], thrown := l.thrown + multiset(l.waiting))
    case _ => l
  }

  function Notes(l: Log, steps: seq<Step>): Log
    decreases steps
  {
    if steps == [] then l else Notes(Noted(l, steps[0]), steps[1..])
  }

  ghost predicate Tracks(s: State, l: Log) {
    && s.producers.Keys == l.brought.Keys
    && (forall t <- s.producers :: OpAt(s.memory, s.producers[t].node) == l.brought[t])
    && s.since == l.waiting && s.applied + Rest(s) == l.taken && s.lost == l.thrown
  }

  lemma ProducerTracks(s: State, l: Log, e: Step)
    requires Inv(s) && Enabled(s, e) && ProducerStep(e) && Tracks(s, l)
    ensures Tracks(Apply(s, e), Noted(l, e))
  {
    ProducerRest(s, e);
    ProducerBrings(s, l.brought, e);
  }

  /** The batch under way does not change under a producer's step. */
  lemma ProducerRest(s: State, e: Step)
    requires Lists(s) && Separate(s) && Enabled(s, e) && ProducerStep(e)
    ensures Rest(Apply(s, e)) == Rest(s)
  {
    AllLive(s);
    ProducerUntouched(s, e);
    FrameLists(s, Apply(s, e).memory);
  }

  lemma ProducerBrings(s: State, brought: map<nat, Op>, e: Step)
    requires Separate(s) && Enabled(s, e) && ProducerStep(e)
    requires s.producers.Keys == brought.Keys
    requires forall t <- s.producers :: OpAt(s.memory, s.producers[t].node) == brought[t]
    ensures var u, after := Apply(s, e), if e.Enter? then brought[e.t := e.op] else brought;
      u.producers.Keys == after.Keys && forall t <- u.producers :: OpAt(u.memory, u.producers[t].node) == after[t]
  {}

  lemma SwapTracks(s: State, l: Log, t: nat)
    requires Inv(s) && Enabled(s, Swap(t)) && Tracks(s, l)
    ensures Tracks(Apply(s, Swap(t)), Noted(l, Swap(t)))
  {
    assert Rest(Apply(s, Swap(t))) == Rest(s);
  }

  lemma TakeTracks(s: State, l: Log)
    requires Inv(s) && Enabled(s, Take) && Tracks(s, l)
    ensures Tracks(Apply(s, Take), Noted(l, Take))
  {
    assert Rest(s) == [] && Rest(Apply(s, Take)) == s.since + [];
    assert s.since + [] == s.since && s.applied + [] == s.applied;
  }

  lemma ReverseOneTracks(s: State, l: Log)
    requires Inv(s) && Enabled(s, ReverseOne) && Tracks(s, l)
    ensures Tracks(Apply(s, ReverseOne), l)
  {
    ReverseOneKeeps(s);
    var u := Apply(s, ReverseOne);
    assert s.batch == s.done + Rest(s) == u.done + Rest(u);
    SameTail(s.done, Rest(s), Rest(u));
    forall t <- s.producers ensures OpAt(u.memory, u.producers[t].node) == l.brought[t] {}
  }

  lemma SameTail(a: seq<Op>, b: seq<Op>, c: seq<Op>)
    requires a + b == a + c
    ensures b == c
  {
    assert (a + b)[|a|..] == b && (a + c)[|a|..] == c;
  }

  lemma ApplyOneTracks(s: State, l: Log)
    requires Inv(s) && Enabled(s, ApplyOne) && Tracks(s, l)
    ensures Tracks(Apply(s, ApplyOne), l)
  {
    var u, o := Apply(s, ApplyOne), s.memory[s.consumer.op].op;
    AppliedOps(s);
    OneApplied(s.applied, o, Rest(u));
    assert s.consumer.op in s.right;
    assert s.consumer.op in s.stack + s.left + s.right;
    forall t <- s.producers ensures OpAt(u.memory, u.producers[t].node) == l.brought[t] {
      assert s.producers[t].node != s.consumer.op;
    }
  }

  lemma StepTracks(s: State, l: Log, e: Step)
    requires Inv(s) && Enabled(s, e) && Tracks(s, l)
    ensures Tracks(Apply(s, e), Noted(l, e))
  {
    if ProducerStep(e) { ProducerTracks(s, l, e); }
    else if e.Swap? { SwapTracks(s, l, e.t); }
    else if e.Take? { TakeTracks(s, l); }
    else if e.ReverseOne? { ReverseOneTracks(s, l); }
    else if e.ApplyOne? { ApplyOneTracks(s, l); }
  }

  lemma {:induction false} RunTracks(s: State, l: Log, steps: seq<Step>, t: State)
    requires Inv(s) && Tracks(s, l) && Run(s, steps, t)
    ensures Tracks(t, Notes(l, steps))
    decreases steps
  {
    if steps == [] {
    } else {
      StepTracks(s, l, steps[0]);
      StepKeeps(s, steps[0]);
      RunTracks(Apply(s, steps[0]), Noted(l, steps[0]), steps[1..], t);
    }
  }

  /**
   Over any run the inbox is that atomic list: what waits, what was applied and is about to be, in
   order, and what was lost, are what the list has waiting, has handed over and has thrown away.
  */
  lemma InboxIsAtomic(steps: seq<Step>, s: State)
    requires Run(Empty(), steps, s)
    ensures var l := Notes(Log(map[], [], [], multiset{}), steps);
      s.since == l.waiting && s.applied + Rest(s) == l.taken && s.lost == l.thrown
  {
    RunTracks(Empty(), Log(map[], [], [], multiset{}), steps, s);
  }

  /** It does happen: an operation pushed after the drain of one turn is lost at the start of the next. */
  lemma ResetLoses(op: Op)
    ensures exists s: State :: Reachable(s) && s.lost == multiset{op} && s.applied == []
  {
    var s0 := Empty();
    var s1 := Apply(s0, Enter(0, 1, op));
    var s2 := Apply(s1, Load(0));
    var s3 := Apply(s2, Link(0));
    var s4 := Apply(s3, Swap(0));
    var s5 := Apply(s4, Reset);
    assert Run(s5, [], s5);
    RunFirst(s4, Reset, [], s5);
    RunFirst(s3, Swap(0), [Reset], s5);
    RunFirst(s2, Link(0), [Swap(0), Reset], s5);
    RunFirst(s1, Load(0), [Link(0), Swap(0), Reset], s5);
    RunFirst(s0, Enter(0, 1, op), [Load(0), Link(0), Swap(0), Reset], s5);
    assert Reachable(s5) && s5.lost == multiset{op};
  }

  lemma RunFirst(s: State, e: Step, rest: seq<Step>, t: State)
    requires Enabled(s, e) && Run(Apply(s, e), rest, t)
    ensures Run(s, [e] + rest, t)
  {
    assert ([e] + rest)[1..] == rest;
  }

  /** The loop thread never reads a cell that is not there, and neither does a producer. */
  lemma CellsLive(s: State)
    requires Reachable(s)
    ensures s.consumer.Reversing? && s.consumer.cur != 0 ==> Enabled(s, ReverseOne)
    ensures s.consumer.Applying? && s.consumer.op != 0 ==> Enabled(s, ApplyOne)
    ensures forall t <- s.producers :: s.producers[t].node in s.memory
  {
    ReachableInv(s);
  }

  /** A drain ends: each of its steps leaves it less to do, whatever producers do meanwhile. */
  function ToDo(s: State): nat {
    match s.consumer
    case Resting => 0
    case Reversing(cur, rev) => 2 * |s.left| + |s.right| + 2
    case Applying(op) => |s.right| + 1
  }

  lemma DrainEnds(s: State, e: Step)
    requires Enabled(s, e)
    ensures e.ReverseOne? || e.ReverseEnd? || e.ApplyOne? || e.ApplyEnd? ==> ToDo(Apply(s, e)) < ToDo(s)
    ensures ProducerStep(e) || e.Swap? ==> ToDo(Apply(s, e)) == ToDo(s)
  {}
}
