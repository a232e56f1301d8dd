/**
 The event loop as a transition system. One event handles one request (or one resource call), and
 carries what the environment answered: the clock, the rate manager, the callbacks and libcurl.
 `Enabled` says when the event can happen; its scope conditions are listed in README.md.
*/
module LoopSteps {
  import opened Sequences
  import opened LoopState

  /** A finished transfer: `answer` is what on_complete or on_failure returned. */
  datatype Completion = Completion(
    ok: bool, tooMany: bool, answer: int, backoff: int, again: bool, now: Time, newKey: Time, pos: nat)

  datatype Event =
    // callers
    | Submit(r: Rid, q: Request)
    | Cancel(r: Rid)
    | Declare(id: Id)
    | AddReference(id: Id)
    | SetAutoRelease(id: Id, enable: bool)
    | DropReference(id: Id)
    | Publish(id: Id, payload: Option<Payload>, cleanup: bool)
    // inside publish
    | PublishNext(r: Rid)
    | PublishEnd
    // process_cancelled_and_pending_requests
    | TakeLists
    | DropCancelled(r: Rid)
    | TakeOne(r: Rid, poll: nat, now: Time, launch: Launch)
    | DrainEnd
    // move_inactive_requests_to_queue
    | DetachRate
    | Scan(p: Place, r: Rid, snapshot: Time, first: nat, firstNow: Time, poll: nat, now: Time, launch: Launch)
    | MergeOne(r: Rid, pos: nat)
    | ScanEnd
    // process_completed_requests
    | Complete(r: Rid, c: Completion)
    // curl_event_loop_destroy
    | CloseBegin
    | CloseNext(p: Place, r: Rid)
    | CloseNode(id: Id)
    | CloseWaiter(r: Rid)
    | CloseErase

  // ----- what each event does

  function FreshRequest(q: Request): Request {
    q.(isPending := true, isCancelled := false, retained := false, attached := false, retries := 0, granted := 0)
  }

  function DoSubmit(s: State, r: Rid, q: Request): State {
    Put(Arrive(s, r, FreshRequest(q)), r, Pending, 0)
  }

  /** curl_event_loop_cancel. */
  function DoCancel(s: State, r: Rid): State
    requires r in s.reqs
  {
    var s1 := SetReq(s, r, s.reqs[r].(isCancelled := true));
    if s.reqs[r].isPending then s1 else s1.(cancelled := [r] + s.cancelled)
  }

  /** curl_event_res_publish up to its loop: store the payload and detach the waiters. */
  function DoPublish(s: State, id: Id, payload: Option<Payload>, cleanup: bool): State {
    s.(g := Store(s.g, id, payload, cleanup), f := Move(s.f, Blocked(id), Work), mode := Publishing(id))
  }

  /** One waiter: fail and destroy it, or put it at the front of the pending list. */
  function DoPublishNext(s: State, r: Rid, id: Id): State
    requires r in s.f.place && r in s.reqs && id in s.g.nodes
  {
    if s.g.nodes[id].failed then Destroy(Abort(Take(s, r), r), r) else Put(Take(s, r), r, Pending, 0)
  }

  function DoTakeLists(s: State): State {
    s.(f := Move(s.f, Pending, Work), mode := Draining, cancelWork := s.cancelled, cancelled := [])
  }

  /** The multimap the drain takes a cancelled request out of, chosen by the handle and the refresh flag. */
  function Chosen(q: Request): Place {
    if q.attached then Queued else if q.refresh then Refresh else Inactive
  }

  function DoDropCancelled(s: State, r: Rid): State
    requires s.cancelWork != [] && r in s.f.place && r in s.reqs
  {
    Destroy(Take(s, r).(cancelWork := s.cancelWork[1..]), r)
  }

  /** The head of the pending snapshot, taken off it and unflagged. */
  function Taken(s: State, r: Rid): State
    requires r in s.f.place && r in s.reqs
  {
    SetReq(Take(s, r), r, s.reqs[r].(isPending := false))
  }

  /** Where a request that is not cancelled goes, once its dependencies are pinned. */
  function Admit(s: State, r: Rid, poll: nat, now: Time, launch: Launch): State
    requires r in s.reqs && r in s.hist
  {
    match FirstUnmet(s.g, s.reqs[r].deps)
    case Some(id) => Block(s, r, id)
    case None =>
      if Ready(s, r, poll, now) then Start(s, r, launch)
      else Put(s, r, EnqueuePlace(s.reqs[r]), launch.pos)
  }

  predicate AdmitFits(s: State, r: Rid, poll: nat, now: Time, launch: Launch)
    requires r in s.reqs
  {
    var q := s.reqs[r];
    FirstUnmet(s.g, q.deps) == None ==>
      if Ready(s, r, poll, now) then now <= launch.now && LaunchFits(s, q, launch)
      else Fits(s, EnqueuePlace(q), q.key, launch.pos)
  }

  function DoTakeOne(s: State, r: Rid, poll: nat, now: Time, launch: Launch): State
    requires r in s.f.place && r in s.reqs && r in s.hist
  {
    var s1 := Taken(s, r);
    if s.reqs[r].isCancelled then Destroy(s1, r) else Admit(Retain(s1, r), r, poll, now, launch)
  }

  /** One turn of a scan over a container whose head is `r`. */
  function DoScan(s: State, r: Rid, first: nat, firstNow: Time, poll: nat, now: Time, launch: Launch): State
    requires r in s.reqs && r in s.f.place
  {
    if s.reqs[r].rateLimited && first > 0 then
      Put(Rekey(Take(s, r), r, firstNow + first), r, RateLimited, launch.pos)
    else if Ready(s, r, poll, now) then
      Start(Take(s, r), r, launch)
    else s
  }

  predicate ScanFits(s: State, r: Rid, first: nat, firstNow: Time, poll: nat, now: Time, launch: Launch)
    requires r in s.reqs
  {
    if s.reqs[r].rateLimited && first > 0 then Fits(s, RateLimited, firstNow + first, launch.pos)
    else Ready(s, r, poll, now) ==> now <= launch.now && LaunchFits(s, s.reqs[r], launch)
  }

  // ----- completions

  function Answer(q: Request, c: Completion): int {
    if !c.ok && !q.onFailure then -1 else c.answer
  }

  /** What on_retry answers. */
  predicate RetryAllowed(q: Request, c: Completion) {
    match q.policy
    case NoPolicy => false
    case DefaultPolicy => q.maxRetries == -1 || q.retries < q.maxRetries
    case OwnPolicy => c.again
  }

  /** The answer is a retry, no 429 is handled first, and there is no on_retry: the code calls a null pointer. */
  predicate CallsMissingRetry(q: Request, c: Completion) {
    !(c.tooMany && q.rateLimited) && Answer(q, c) < 0 && q.policy == NoPolicy
  }

  datatype Outcome = TooMany | Later | Retry | Again | Finished

  function OutcomeOf(q: Request, c: Completion): Outcome {
    if c.tooMany && q.rateLimited then TooMany
    else if Answer(q, c) > 0 then Later
    else if Answer(q, c) < 0 && RetryAllowed(q, c) then Retry
    else if q.refresh then Again
    else Finished
  }

  /** next_retry_at; finishing leaves it alone, even for a request that will be refreshed. */
  function NewKey(q: Request, c: Completion): Time {
    match OutcomeOf(q, c)
    case TooMany => c.now + c.backoff * 1_000_000_000
    case Later => c.now + Answer(q, c) * 1_000_000_000
    case Retry => c.newKey
    case Again => q.key
    case Finished => q.key
  }

  /** Whether the default policy has granted a retry. */
  predicate Granted(q: Request, c: Completion) {
    OutcomeOf(q, c) == Retry && q.policy == DefaultPolicy
  }

  function NewRetries(q: Request, c: Completion): nat {
    if Granted(q, c) then q.retries + 1 else if OutcomeOf(q, c) == Again then 0 else q.retries
  }

  /** The request as process_completed_requests leaves it. */
  function Completed(q: Request, c: Completion): Request {
    q.(key := NewKey(q, c), retries := NewRetries(q, c),
       granted := if Granted(q, c) then q.granted + 1 else q.granted)
  }

  function DoComplete(s: State, r: Rid, c: Completion): State
    requires r in s.reqs && r in s.f.place
  {
    var q := s.reqs[r];
    var s1 := SetReq(Take(s, r), r, Completed(q, c));
    match OutcomeOf(q, c)
    case TooMany => Put(s1, r, RateLimited, c.pos)
    case Finished => Destroy(s1, r)
    case _ => Put(Cleanup(s1, r), r, EnqueuePlace(q), c.pos)
  }

  predicate CompleteFits(s: State, r: Rid, c: Completion)
    requires r in s.reqs
  {
    var q := s.reqs[r];
    match OutcomeOf(q, c)
    case TooMany => Fits(s, RateLimited, Completed(q, c).key, c.pos)
    case Finished => true
    case _ => Fits(s, EnqueuePlace(q), Completed(q, c).key, c.pos)
  }

  // ----- teardown

  /** The containers curl_event_loop_destroy empties, in its order. */
  function ClosingRank(p: Place): nat {
    match p
    case Queued => 0
    case Inactive => 1
    case Refresh => 2
    case RateLimited => 3
    case Pending => 4
    case _ => 5
  }

  predicate EmptyBefore(f: Files, k: nat) {
    && (k > 0 ==> ListOf(f, Queued) == []) && (k > 1 ==> ListOf(f, Inactive) == [])
    && (k > 2 ==> ListOf(f, Refresh) == []) && (k > 3 ==> ListOf(f, RateLimited) == [])
    && (k > 4 ==> ListOf(f, Pending) == [])
  }

  /**
   The walk over the cancelled list, between the multimaps and the pending list. It destroys what it
   finds; None is a read of a request that is gone.
  */
  function WalkCancelled(s: State, c: seq<Rid>): Option<State>
    decreases c
  {
    if c == [] then Some(s)
    else if c[0] !in s.reqs then None
    else WalkCancelled(Destroy(s, c[0]), c[1..])
  }

  // ----- the transition system

  /** `r` is the head of the list of `p` and may be touched. */
  predicate Head(s: State, p: Place, r: Rid) {
    ListOf(s.f, p) != [] && ListOf(s.f, p)[0] == r && r in s.reqs && r in s.f.place && r in s.hist
  }

  /** `r` waits on a node after `id` in the order of the resource map, and has `id` pinned as well. */
  predicate PinsLater(s: State, r: Rid, id: Id) {
    && r in s.reqs && r in s.f.place && s.f.place[r].Blocked? && s.f.place[r].id > id
    && id in PinnedDeps(s.reqs[r])
  }

  /** Once all requests but those that wait on it or on later nodes are gone, the node outlives its waiters. */
  predicate Held(s: State, id: Id)
    requires id in s.g.nodes
  {
    !s.g.nodes[id].autoRelease || Client(s.g, id) >= 2 || exists r <- s.reqs :: PinsLater(s, r, id)
  }

  /** Teardown can take the node apart without reading it after it was freed. */
  predicate Kept(s: State, id: Id)
    requires id in s.g.nodes
  {
    ListOf(s.f, Blocked(id)) == [] || Held(s, id)
  }

  predicate Enabled(s: State, e: Event) {
    match e
    case Submit(r, q) => Open(s.mode) && r != 0 && r !in s.submitted
    case Cancel(r) =>
      && Open(s.mode) && r in s.reqs && r in s.f.place && !s.reqs[r].isCancelled
      && (s.reqs[r].isPending || s.f.place[r] in {Queued, Inactive, Refresh})
    case Declare(id) => s.mode.Running? && id !in s.g.nodes
    case AddReference(id) => s.mode.Running?
    case SetAutoRelease(id, enable) => s.mode.Running? && (enable ==> Client(s.g, id) >= 1)
    case DropReference(id) =>
      && s.mode.Running?
      && (id in s.g.nodes ==> Client(s.g, id) >= (if s.g.nodes[id].autoRelease then 2 else 1))
    case Publish(id, payload, cleanup) => s.mode.Running?
    case PublishNext(r) => s.mode.Publishing? && Head(s, Work, r) && s.mode.id in s.g.nodes
    case PublishEnd => s.mode.Publishing? && ListOf(s.f, Work) == []
    case TakeLists => s.mode.Running?
    case DropCancelled(r) =>
      && s.mode.Draining? && s.cancelWork != [] && s.cancelWork[0] == r
      && r in s.reqs && r in s.f.place && r in s.hist
    case TakeOne(r, poll, now, launch) =>
      && s.mode.Draining? && s.cancelWork == [] && Head(s, Work, r)
      && (!s.reqs[r].isCancelled ==> AdmitFits(Retain(Taken(s, r), r), r, poll, now, launch))
    case DrainEnd => s.mode.Draining? && s.cancelWork == [] && ListOf(s.f, Work) == []
    case DetachRate => s.mode.Running?
    case Scan(p, r, snapshot, first, firstNow, poll, now, launch) =>
      && (if p == Root then s.mode.Scanning? else s.mode.Running? && p in {Refresh, Inactive})
      && Head(s, p, r) && !s.reqs[r].isCancelled && (p == Root ==> snapshot >= s.reqs[r].key)
      && ScanFits(s, r, first, firstNow, poll, now, launch)
    case MergeOne(r, pos) => s.mode.Scanning? && Head(s, RateLimited, r) && Fits(s, Root, s.reqs[r].key, pos)
    case ScanEnd => s.mode.Scanning? && ListOf(s.f, RateLimited) == []
    case Complete(r, c) =>
      && s.mode.Running? && r in s.reqs && r in s.f.place && s.f.place[r] == Queued && !s.reqs[r].isCancelled
      && !(c.ok && c.tooMany) && CompleteFits(s, r, c) && !CallsMissingRetry(s.reqs[r], c)
    case CloseBegin => s.mode.Running?
    case CloseNext(p, r) =>
      && s.mode.Closing? && p in {Queued, Inactive, Refresh, RateLimited, Pending}
      && EmptyBefore(s.f, ClosingRank(p)) && Head(s, p, r) && (p == Pending ==> s.undrained == [])
    case CloseNode(id) =>
      && s.mode.Closing? && EmptyBefore(s.f, 5) && s.undrained == []
      && id in s.g.nodes && Kept(s, id) && forall i <- s.g.nodes :: id <= i
    case CloseWaiter(r) => s.mode.ClosingNode? && Head(s, Work, r)
    case CloseErase => s.mode.ClosingNode? && ListOf(s.f, Work) == [] && s.mode.id in s.g.nodes
  }

  function Apply(s: State, e: Event): State
    requires Enabled(s, e)
  {
    match e
    case Submit(r, q) => DoSubmit(s, r, q)
    case Cancel(r) => DoCancel(s, r)
    case Declare(id) => s.(g := Addref(s.g, id))
    case AddReference(id) => s.(g := Addref(s.g, id))
    case SetAutoRelease(id, enable) => s.(g := SetAuto(s.g, id, enable))
    case DropReference(id) => s.(g := Release(s.g, id))
    case Publish(id, payload, cleanup) => DoPublish(s, id, payload, cleanup)
    case PublishNext(r) => DoPublishNext(s, r, s.mode.id)
    case PublishEnd => s.(mode := Running)
    case TakeLists => DoTakeLists(s)
    case DropCancelled(r) => DoDropCancelled(s, r)
    case TakeOne(r, poll, now, launch) => DoTakeOne(s, r, poll, now, launch)
    case DrainEnd => s.(mode := Running)
    case DetachRate => s.(f := Move(s.f, RateLimited, Root), mode := Scanning)
    case Scan(p, r, snapshot, first, firstNow, poll, now, launch) =>
      DoScan(s, r, first, firstNow, poll, now, launch)
    case MergeOne(r, pos) => Put(Take(s, r), r, Root, pos)
    case ScanEnd => s.(f := Move(s.f, Root, RateLimited), mode := Running)
    case Complete(r, c) => DoComplete(s, r, c)
    case CloseBegin => s.(mode := Closing, undrained := s.cancelled, cancelled := [])
    case CloseNext(p, r) => Destroy(Take(s, r), r)
    case CloseNode(id) => s.(f := Move(s.f, Blocked(id), Work), mode := ClosingNode(id))
    case CloseWaiter(r) => Destroy(Abort(Take(s, r), r), r)
    case CloseErase => s.(g := Erase(s.g, s.mode.id), mode := Closing)
  }

  /** `events` lead from `s` to `t`. */
  ghost predicate Run(s: State, events: seq<Event>, t: State)
    decreases events
  {
    if events == [] then s == t
    else Enabled(s, events[0]) && Run(Apply(s, events[0]), events[1..], t)
  }

  /** `s` can happen, starting from a new loop. */
  ghost predicate Reachable(s: State) {
    exists limit: nat, events: seq<Event> :: Run(Initial(limit), events, s)
  }
}
