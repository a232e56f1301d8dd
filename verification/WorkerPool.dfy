/**
 The worker pool as steps of its threads: any number of workers and pushing clients share a mutex and
 a condition variable, which may wake a waiter for no reason.
*/
module WorkerPool {
  import opened WorkQueue

  /** Where a worker is in worker_thread_main and work_queue_pop. */
  datatype Worker =
    | Ready          // about to lock the mutex
    | Checking       // holds the mutex, at the head of the wait loop
    | Waiting        // in pthread_cond_wait, the mutex released
    | Woken          // told to go on, about to take the mutex again
    | Working(job: Job)
    | Exited

  /** Who holds the mutex. */
  datatype Holder =
    | Nobody
    | Popper(i: nat)
    | Pusher(job: Job)     // worker_pool_push, before the item is linked
    | Signaller            // worker_pool_push, before the signal
    | Leaver               // worker_pool_push, before the unlock
    | Stopper              // worker_pool_stop, before the flag is set
    | Broadcaster          // worker_pool_stop, before the broadcast
    | StopLeaver           // worker_pool_stop, before the unlock

  /** `closing`: destroy has been called; `joined`: it has joined every thread. The rest is history. */
  datatype Pool = Pool(
    queue: seq<Job>, stop: bool, holder: Holder, workers: seq<Worker>, closing: bool, joined: bool,
    pushed: seq<Job>, popped: seq<Job>, executed: multiset<Job>)

  datatype Step =
    | Lock(i: nat) | Wait(i: nat) | Take(i: nat) | Quit(i: nat) | Relock(i: nat) | Finish(i: nat)
    | Spurious(i: nat)
    | PushLock(job: Job) | PushLink | Signal(wakes: int) | PushUnlock
    | Destroy | SetStop | Broadcast | StopUnlock | Join

  function Fresh(n: nat): Pool {
    Pool([], false, Nobody, seq(n, _ => Ready), false, false, [], [], multiset{})
  }

  predicate At(p: Pool, i: nat, w: Worker) {
    i < |p.workers| && p.workers[i] == w
  }

  predicate Holds(p: Pool, i: nat) {
    p.holder == Popper(i) && At(p, i, Checking)
  }

  predicate SomeoneWaits(p: Pool) {
    exists i :: 0 <= i < |p.workers| && p.workers[i] == Waiting
  }

  predicate Enabled(p: Pool, s: Step) {
    match s
    case Lock(i) => p.holder == Nobody && At(p, i, Ready)
    case Wait(i) => Holds(p, i) && !p.stop && p.queue == []
    case Take(i) => Holds(p, i) && p.queue != []
    case Quit(i) => Holds(p, i) && p.stop && p.queue == []
    case Relock(i) => p.holder == Nobody && At(p, i, Woken)
    case Finish(i) => i < |p.workers| && p.workers[i].Working?
    case Spurious(i) => At(p, i, Waiting)
    case PushLock(job) => p.holder == Nobody && !p.closing
    case PushLink => p.holder.Pusher?
    case Signal(i) =>
      p.holder == Signaller && if i < 0 then !SomeoneWaits(p) else i < |p.workers| && p.workers[i] == Waiting
    case PushUnlock => p.holder == Leaver
    case Destroy => p.holder == Nobody && !p.closing
    case SetStop => p.holder == Stopper
    case Broadcast => p.holder == Broadcaster
    case StopUnlock => p.holder == StopLeaver
    case Join =>
      p.stop && p.holder == Nobody && !p.joined && forall i :: 0 <= i < |p.workers| ==> p.workers[i] == Exited
  }

  function Put(p: Pool, i: nat, w: Worker): Pool
    requires i < |p.workers|
  {
    p.(workers := p.workers[i := w])
  }

  function Apply(p: Pool, s: Step): Pool
    requires Enabled(p, s)
  {
    match s
    case Lock(i) => Put(p, i, Checking).(holder := Popper(i))
    case Wait(i) => Put(p, i, Waiting).(holder := Nobody)
    case Take(i) =>
      Put(p, i, Working(p.queue[0])).(holder := Nobody, queue := p.queue[1..], popped := p.popped + [p.queue[0]])
    case Quit(i) => Put(p, i, Exited).(holder := Nobody)
    case Relock(i) => Put(p, i, Checking).(holder := Popper(i))
    case Finish(i) => Put(p, i, Ready).(executed := p.executed + multiset{p.workers[i].job})
    case Spurious(i) => Put(p, i, Woken)
    case PushLock(job) => p.(holder := Pusher(job))
    case PushLink => p.(holder := Signaller, queue := p.queue + [p.holder.job], pushed := p.pushed + [p.holder.job])
    case Signal(i) => (if i < 0 then p else Put(p, i, Woken)).(holder := Leaver)
    case PushUnlock => p.(holder := Nobody)
    case Destroy => p.(holder := Stopper, closing := true)
    case SetStop => p.(holder := Broadcaster, stop := true)
    case Broadcast => p.(holder := StopLeaver, workers := WakeAll(p.workers))
    case StopUnlock => p.(holder := Nobody)
    case Join => p.(joined := true)
  }

  function WakeAll(ws: seq<Worker>): (r: seq<Worker>)
    ensures |r| == |ws| && forall i :: 0 <= i < |ws| ==> r[i] == if ws[i] == Waiting then Woken else ws[i]
  {
    seq(|ws|, i requires 0 <= i < |ws| => if ws[i] == Waiting then Woken else ws[i])
  }

  ghost predicate Run(p: Pool, steps: seq<Step>, q: Pool)
    decreases steps
  {
    if steps == [] then p == q else Enabled(p, steps[0]) && Run(Apply(p, steps[0]), steps[1..], q)
  }

  ghost predicate Reachable(p: Pool) {
    exists n: nat, steps: seq<Step> :: n > 0 && Run(Fresh(n), steps, p)
  }

  // ----- what is being worked on

  function Running(ws: seq<Worker>): multiset<Job>
    decreases ws
  {
    if ws == [] then multiset{} else JobsOf(ws[0]) + Running(ws[1..])
  }

  function JobsOf(w: Worker): multiset<Job> {
    if w.Working? then multiset{w.job} else multiset{}
  }

  lemma {:induction false} RunningSet(ws: seq<Worker>, i: nat, w: Worker)
    requires i < |ws|
    ensures Running(ws[i := w]) + JobsOf(ws[i]) == Running(ws) + JobsOf(w)
    decreases ws
  {
    var after := ws[i := w];
    if i > 0 {
      RunningSet(ws[1..], i - 1, w);
      assert after[1..] == ws[1..][i - 1 := w] && after[0] == ws[0] && ws[1..][i - 1] == ws[i];
      Regroup(JobsOf(ws[0]), Running(after[1..]), JobsOf(ws[i]), Running(ws[1..]), JobsOf(w));
    } else {
      assert after[1..] == ws[1..] && after[0] == w;
      Rotate(JobsOf(w), Running(ws[1..]), JobsOf(ws[0]));
    }
  }

  lemma Regroup(a: multiset<Job>, b: multiset<Job>, c: multiset<Job>, d: multiset<Job>, e: multiset<Job>)
    requires b + c == d + e
    ensures a + b + c == a + d + e
  {
    assert a + b + c == a + (b + c) && a + d + e == a + (d + e);
  }

  lemma Rotate(a: multiset<Job>, b: multiset<Job>, c: multiset<Job>)
    ensures a + b + c == c + b + a
  {}

  lemma {:induction false} RunningWake(ws: seq<Worker>)
    ensures Running(WakeAll(ws)) == Running(ws)
    decreases ws
  {
    if ws == [] {
    } else {
      RunningWake(ws[1..]);
      assert WakeAll(ws)[1..] == WakeAll(ws[1..]);
    }
  }

  lemma {:induction false} NoneRunning(ws: seq<Worker>)
    requires forall i :: 0 <= i < |ws| ==> !ws[i].Working?
    ensures Running(ws) == multiset{}
    decreases ws
  {
    if ws == [] {
    } else {
      NoneRunning(ws[1..]);
    }
  }

  // ----- the invariant

  /** Items leave the queue in the order they came, and each is running or done once it has left. */
  ghost predicate Conserved(p: Pool) {
    p.pushed == p.popped + p.queue && multiset(p.popped) == p.executed + Running(p.workers)
  }

  /** Only the holder of the mutex is checking; the flags go with the stages of destroy. */
  ghost predicate Exclusive(p: Pool) {
    && |p.workers| > 0
    && (forall i :: 0 <= i < |p.workers| ==> (p.workers[i] == Checking <==> p.holder == Popper(i)))
    && (p.holder.Popper? ==> p.holder.i < |p.workers|)
    && (p.stop ==> p.closing) && (p.holder.Stopper? ==> p.closing)
    && (p.holder.Broadcaster? || p.holder.StopLeaver? ==> p.stop)
    && (p.closing && p.holder != Stopper ==> p.stop)
    && (p.holder.Pusher? || p.holder.Signaller? || p.holder.Leaver? ==> !p.closing)
  }

  predicate Idle(w: Worker) {
    w == Waiting || w == Exited
  }

  predicate Awake(p: Pool) {
    exists i :: 0 <= i < |p.workers| && !Idle(p.workers[i])
  }

  /** A worker is up whenever there is work, except between linking an item and signalling it. */
  ghost predicate Alert(p: Pool) {
    && (forall i :: 0 <= i < |p.workers| && p.workers[i] == Exited ==> p.stop && p.queue == [])
    && (p.stop && p.holder != Broadcaster ==> forall i :: 0 <= i < |p.workers| ==> p.workers[i] != Waiting)
    && (p.queue != [] && p.holder != Signaller ==> Awake(p))
    && (p.joined ==> p.holder == Nobody)
    && (p.joined ==> p.stop && p.queue == [] && forall i :: 0 <= i < |p.workers| ==> p.workers[i] == Exited)
  }

  ghost predicate Inv(p: Pool) {
    Conserved(p) && Exclusive(p) && Alert(p)
  }

  lemma {:induction false} SetRunning(p: Pool, i: nat, w: Worker)
    requires i < |p.workers| && JobsOf(p.workers[i]) == JobsOf(w)
    ensures Running(p.workers[i := w]) == Running(p.workers)
  {
    RunningSet(p.workers, i, w);
    SameLess(Running(p.workers[i := w]), Running(p.workers), JobsOf(w));
  }

  lemma SameLess(a: multiset<Job>, b: multiset<Job>, c: multiset<Job>)
    requires a + c == b + c
    ensures a == b
  {
    forall x: Job ensures a[x] == b[x] {
      assert (a + c)[x] == (b + c)[x];
    }
  }

  lemma StepConserved(p: Pool, s: Step)
    requires Conserved(p) && Enabled(p, s)
    ensures Conserved(Apply(p, s))
  {
    if s.Take? {
      TakeConserved(p, s.i);
    } else if s.Finish? {
      FinishConserved(p, s.i);
    } else if s.Broadcast? {
      RunningWake(p.workers);
    } else if s.Lock? || s.Wait? || s.Quit? || s.Relock? || s.Spurious? {
      MoveConserved(p, s);
    } else if s.Signal? && s.wakes >= 0 {
      SetRunning(p, s.wakes, Woken);
    } else if s.PushLink? {
      LinkConserved(p);
    }
  }

  /** A worker that takes up or puts down no item. */
  lemma MoveConserved(p: Pool, s: Step)
    requires Conserved(p) && Enabled(p, s) && (s.Lock? || s.Wait? || s.Quit? || s.Relock? || s.Spurious?)
    ensures Conserved(Apply(p, s))
  {
    SetRunning(p, s.i, Apply(p, s).workers[s.i]);
  }

  lemma LinkConserved(p: Pool)
    requires Conserved(p) && Enabled(p, PushLink)
    ensures Conserved(Apply(p, PushLink))
  {
    assert p.pushed + [p.holder.job] == p.popped + (p.queue + [p.holder.job]);
  }

  lemma TakeConserved(p: Pool, i: nat)
    requires Conserved(p) && Enabled(p, Take(i))
    ensures Conserved(Apply(p, Take(i)))
  {
    var j := p.queue[0];
    TakeOrder(p.popped, p.queue);
    RunningSet(p.workers, i, Working(j));
    Moved(p.popped, p.executed, Running(p.workers), j);
    assert Running(p.workers[i := Working(j)]) == Running(p.workers) + multiset{j};
  }

  lemma TakeOrder(before: seq<Job>, queue: seq<Job>)
    requires queue != []
    ensures before + queue == before + [queue[0]] + queue[1..]
  {
    assert queue == [queue[0]] + queue[1..];
  }

  lemma Moved(popped: seq<Job>, executed: multiset<Job>, running: multiset<Job>, j: Job)
    requires multiset(popped) == executed + running
    ensures multiset(popped + [j]) == executed + (running + multiset{j})
  {
    assert multiset(popped + [j]) == multiset(popped) + multiset{j};
  }

  lemma FinishConserved(p: Pool, i: nat)
    requires Conserved(p) && Enabled(p, Finish(i))
    ensures Conserved(Apply(p, Finish(i)))
  {
    var q, j := Apply(p, Finish(i)), p.workers[i].job;
    RunningSet(p.workers, i, Ready);
    assert Running(q.workers) + multiset{j} == Running(p.workers);
  }

  lemma StepExclusive(p: Pool, s: Step)
    requires Exclusive(p) && Enabled(p, s)
    ensures Exclusive(Apply(p, s))
  {}

  lemma StepAlert(p: Pool, s: Step)
    requires Exclusive(p) && Alert(p) && Enabled(p, s)
    ensures Alert(Apply(p, s))
  {
    var q := Apply(p, s);
    if q.queue != [] && q.holder != Signaller {
      StaysAwake(p, s);
    }
  }

  /** Whoever is up stays up while there is work. */
  lemma StaysAwake(p: Pool, s: Step)
    requires Exclusive(p) && Alert(p) && Enabled(p, s) && Apply(p, s).queue != [] && Apply(p, s).holder != Signaller
    ensures Awake(Apply(p, s))
  {
    var q := Apply(p, s);
    if s.Signal? {
      assert !Idle(q.workers[if s.wakes >= 0 then s.wakes else 0]);
    } else if s.Lock? || s.Take? || s.Relock? || s.Finish? || s.Spurious? {
      assert !Idle(q.workers[s.i]);
    } else {
      var k :| 0 <= k < |p.workers| && !Idle(p.workers[k]);
      assert !Idle(q.workers[k]);
    }
  }

  lemma {:induction false} RunKeeps(p: Pool, steps: seq<Step>, q: Pool)
    requires Inv(p) && Run(p, steps, q)
    ensures Inv(q)
    decreases steps
  {
    if steps == [] {
    } else {
      StepConserved(p, steps[0]);
      StepExclusive(p, steps[0]);
      StepAlert(p, steps[0]);
      RunKeeps(Apply(p, steps[0]), steps[1..], q);
    }
  }

  lemma ReachableInv(p: Pool)
    requires Reachable(p)
    ensures Inv(p)
  {
    var n: nat, steps :| n > 0 && Run(Fresh(n), steps, p);
    NoneRunning(Fresh(n).workers);
    RunKeeps(Fresh(n), steps, p);
  }

  // ----- what the pool promises

  /** Items are taken in the order they were pushed, each once, and each item taken is running or done. */
  lemma FirstInFirstOut(p: Pool)
    requires Reachable(p)
    ensures p.pushed == p.popped + p.queue
    ensures multiset(p.popped) == p.executed + Running(p.workers)
  {
    ReachableInv(p);
  }

  /** When destroy has joined every thread, exactly the items pushed have been executed, each once. */
  lemma AllExecuted(p: Pool)
    requires Reachable(p) && p.joined
    ensures p.executed == multiset(p.pushed)
  {
    ReachableInv(p);
    NoneRunning(p.workers);
    assert p.popped + [] == p.popped;
  }

  /** The jobs clients have called push with, in the order they got the mutex. */
  function Requested(steps: seq<Step>): seq<Job>
    decreases steps
  {
    if steps == [] then []
    else (if steps[0].PushLock? then [steps[0].job] else []) + Requested(steps[1..])
  }

  function Carried(h: Holder): seq<Job> {
    if h.Pusher? then [h.job] else []
  }

  lemma {:induction false} RunPushes(p: Pool, steps: seq<Step>, q: Pool)
    requires Run(p, steps, q)
    ensures q.pushed + Carried(q.holder) == p.pushed + Carried(p.holder) + Requested(steps)
    decreases steps
  {
    if steps == [] {
      assert p.pushed + Carried(p.holder) + [] == p.pushed + Carried(p.holder);
    } else {
      var u := Apply(p, steps[0]);
      StepPushes(p, steps[0]);
      RunPushes(u, steps[1..], q);
      var first := if steps[0].PushLock? then [steps[0].job] else [];
      Reassociate(p.pushed + Carried(p.holder), first, Requested(steps[1..]));
    }
  }

  lemma StepPushes(p: Pool, s: Step)
    requires Enabled(p, s)
    ensures var u := Apply(p, s);
      u.pushed + Carried(u.holder) == p.pushed + Carried(p.holder) + if s.PushLock? then [s.job] else []
  {
    assert p.pushed + [] == p.pushed;
  }

  lemma Reassociate(a: seq<Job>, b: seq<Job>, c: seq<Job>)
    ensures a + b + c == a + (b + c)
  {}

  /** What is queued, running or done, and the item a client is about to link, is what clients called push with. */
  lemma PushedAsRequested(n: nat, steps: seq<Step>, p: Pool)
    requires n > 0 && Run(Fresh(n), steps, p)
    ensures p.popped + p.queue + Carried(p.holder) == Requested(steps)
    ensures p.joined ==> p.executed == multiset(Requested(steps))
  {
    assert Reachable(p);
    ReachableInv(p);
    RunPushes(Fresh(n), steps, p);
    assert [] + [] + Requested(steps) == Requested(steps);
    if p.joined {
      AllExecuted(p);
      assert p.pushed + [] == p.pushed;
    }
  }

  /**
   No wakeup is lost: with work in the queue some worker is up, unless a client is about to signal;
   and once stop has been broadcast no worker waits.
  */
  lemma NoLostWakeup(p: Pool)
    requires Reachable(p)
    ensures p.queue != [] && p.holder != Signaller ==> Awake(p)
    ensures p.stop && p.holder != Broadcaster ==> forall i :: 0 <= i < |p.workers| ==> p.workers[i] != Waiting
  {
    ReachableInv(p);
  }

  /** The steps of the workers themselves, but not a wakeup for no reason. */
  predicate OwnStep(s: Step) {
    s.Lock? || s.Wait? || s.Take? || s.Quit? || s.Relock? || s.Finish?
  }

  /** The steps a worker is away from rest, if a waiting one counts `waiting`. */
  function Weight(w: Worker, waiting: nat): nat {
    match w
    case Working(job) => 3
    case Ready => 2
    case Woken => 2
    case Checking => 1
    case Waiting => waiting
    case Exited => 0
  }

  function Weights(ws: seq<Worker>, waiting: nat): nat
    decreases ws
  {
    if ws == [] then 0 else Weight(ws[0], waiting) + Weights(ws[1..], waiting)
  }

  /** What the workers have still to do before they all wait or are gone. */
  function ToDo(p: Pool): nat {
    Weights(p.workers, 0) + 3 * |p.queue|
  }

  lemma {:induction false} WeightsSet(ws: seq<Worker>, i: nat, w: Worker, waiting: nat)
    requires i < |ws|
    ensures Weights(ws[i := w], waiting) + Weight(ws[i], waiting) == Weights(ws, waiting) + Weight(w, waiting)
    decreases ws
  {
    var after := ws[i := w];
    if i == 0 {
      assert after[1..] == ws[1..];
    } else {
      WeightsSet(ws[1..], i - 1, w, waiting);
      assert after[1..] == ws[1..][i - 1 := w];
    }
  }

  /** Every step of a worker brings the pool closer to rest. */
  lemma OwnStepDecreases(p: Pool, s: Step)
    requires Enabled(p, s) && OwnStep(s)
    ensures ToDo(Apply(p, s)) < ToDo(p)
  {
    WeightsSet(p.workers, s.i, Apply(p, s).workers[s.i], 0);
  }

  /** However the workers are scheduled, they can go on by themselves for at most ToDo steps. */
  lemma {:induction false} OwnRunBounded(p: Pool, steps: seq<Step>, q: Pool)
    requires Run(p, steps, q) && forall s <- steps :: OwnStep(s)
    ensures |steps| + ToDo(q) <= ToDo(p)
    decreases steps
  {
    if steps == [] {
    } else {
      assert steps[0] in steps;
      OwnStepDecreases(p, steps[0]);
      OwnRunBounded(Apply(p, steps[0]), steps[1..], q);
    }
  }

  predicate AtRest(p: Pool) {
    p.holder == Nobody && forall i :: 0 <= i < |p.workers| ==> Idle(p.workers[i])
  }

  /** Unless someone else holds the mutex, some worker can go on until they are all at rest. */
  lemma OwnStepEnabled(p: Pool) returns (s: Step)
    requires Reachable(p) && !AtRest(p) && (p.holder == Nobody || p.holder.Popper?)
    ensures Enabled(p, s) && OwnStep(s)
  {
    ReachableInv(p);
    if p.holder.Popper? {
      var i := p.holder.i;
      assert p.workers[i] == Checking;
      s := if p.queue != [] then Take(i) else if p.stop then Quit(i) else Wait(i);
    } else {
      var i :| 0 <= i < |p.workers| && !Idle(p.workers[i]);
      s := if p.workers[i] == Ready then Lock(i) else if p.workers[i] == Woken then Relock(i) else Finish(i);
    }
  }

  /** A client or destroy that holds the mutex gives it back in a few steps of its own. */
  lemma HolderGoesOn(p: Pool) returns (s: Step)
    requires Reachable(p) && p.holder != Nobody && !p.holder.Popper?
    ensures Enabled(p, s)
    ensures s.PushLink? || s.Signal? || s.PushUnlock? || s.SetStop? || s.Broadcast? || s.StopUnlock?
  {
    match p.holder
    case Pusher(job) => s := PushLink;
    case Signaller =>
      if SomeoneWaits(p) {
        var i :| 0 <= i < |p.workers| && p.workers[i] == Waiting;
        s := Signal(i);
      } else {
        s := Signal(-1);
      }
    case Leaver => s := PushUnlock;
    case Stopper => s := SetStop;
    case Broadcaster => s := Broadcast;
    case StopLeaver => s := StopUnlock;
  }

  /** At rest nothing pushed is left undone; and once the pool is stopping, rest means all can be joined. */
  lemma RestMeansDone(p: Pool)
    requires Reachable(p) && AtRest(p)
    ensures p.queue == [] && p.executed == multiset(p.pushed)
    ensures p.stop && !p.joined ==> Enabled(p, Join)
  {
    ReachableInv(p);
    NoneRunning(p.workers);
    assert p.popped + [] == p.popped;
  }

  lemma {:induction false} RunOne(p: Pool, steps: seq<Step>, q: Pool, s: Step)
    requires Run(p, steps, q) && Enabled(q, s)
    ensures Run(p, steps + [s], Apply(q, s))
    decreases steps
  {
    if steps == [] {
      assert [s][1..] == [];
    } else {
      RunOne(Apply(p, steps[0]), steps[1..], q, s);
      assert (steps + [s])[1..] == steps[1..] + [s];
    }
  }

  lemma ReachableStep(p: Pool, s: Step)
    requires Reachable(p) && Enabled(p, s)
    ensures Reachable(Apply(p, s))
  {
    var n: nat, steps :| n > 0 && Run(Fresh(n), steps, p);
    RunOne(Fresh(n), steps, p, s);
  }

  lemma {:induction false} ReachableRun(p: Pool, steps: seq<Step>, q: Pool)
    requires Reachable(p) && Run(p, steps, q)
    ensures Reachable(q)
    decreases steps
  {
    if steps == [] {
    } else {
      ReachableStep(p, steps[0]);
      ReachableRun(Apply(p, steps[0]), steps[1..], q);
    }
  }

  // ----- destroy

  /** The steps destroy has still to take before it gives back the mutex. */
  function Stages(h: Holder): nat {
    match h
    case Stopper => 3
    case Broadcaster => 2
    case StopLeaver => 1
    case _ => 0
  }

  /** What is left until every thread is joined: a waiting worker has yet to be woken, for a reason or for none. */
  function Left(p: Pool): nat {
    Weights(p.workers, 3) + 3 * |p.queue| + Stages(p.holder) + if p.joined then 0 else 1
  }

  lemma {:induction false} WakeLowers(ws: seq<Worker>)
    ensures Weights(WakeAll(ws), 3) <= Weights(ws, 3)
    decreases ws
  {
    if ws == [] {
    } else {
      WakeLowers(ws[1..]);
      assert WakeAll(ws)[1..] == WakeAll(ws[1..]);
    }
  }

  /** Once destroy has been called every step of anyone, spurious wakeups included, leaves less to do. */
  lemma CloseStepDecreases(p: Pool, s: Step)
    requires Exclusive(p) && p.closing && Enabled(p, s)
    ensures Left(Apply(p, s)) < Left(p) && Apply(p, s).closing && Apply(p, s).pushed == p.pushed
  {
    if s.Broadcast? {
      WakeLowers(p.workers);
    } else if OwnStep(s) || s.Spurious? {
      WeightsSet(p.workers, s.i, Apply(p, s).workers[s.i], 3);
    }
  }

  /** However the threads are scheduled, at most Left steps can follow the call of destroy. */
  lemma {:induction false} CloseRunBounded(p: Pool, steps: seq<Step>, q: Pool)
    requires Reachable(p) && p.closing && Run(p, steps, q)
    ensures |steps| + Left(q) <= Left(p) && q.closing && q.pushed == p.pushed
    decreases steps
  {
    if steps == [] {
    } else {
      ReachableInv(p);
      CloseStepDecreases(p, steps[0]);
      ReachableStep(p, steps[0]);
      CloseRunBounded(Apply(p, steps[0]), steps[1..], q);
    }
  }

  /** No thread can take a step. */
  ghost predicate Stuck(p: Pool) {
    forall s :: !Enabled(p, s)
  }

  /** After destroy was called the threads can go on until all are joined, and no further. */
  lemma StuckIffJoined(p: Pool)
    requires Reachable(p) && p.closing
    ensures Stuck(p) <==> p.joined
  {
    ReachableInv(p);
    if !p.joined {
      if p.holder != Nobody && !p.holder.Popper? {
        var s := HolderGoesOn(p);
      } else if !AtRest(p) {
        var s := OwnStepEnabled(p);
      } else {
        RestMeansDone(p);
      }
    }
  }

  /**
   Whatever the scheduling, a run from the call of destroy is over within Left steps; and when it is
   over, every thread has been joined and every item pushed has been executed, once.
  */
  lemma DestroyCompletes(p: Pool, steps: seq<Step>, q: Pool)
    requires Reachable(p) && p.closing && Run(p, steps, q)
    ensures |steps| <= Left(p)
    ensures Stuck(q) <==> q.joined
    ensures Stuck(q) ==> q.executed == multiset(q.pushed) && q.pushed == p.pushed
  {
    CloseRunBounded(p, steps, q);
    ReachableRun(p, steps, q);
    StuckIffJoined(q);
    if q.joined { AllExecuted(q); }
  }
}
